/** What interleaved runs do to the content of rows: everything the service writes stays readable, and
    a ciphertext nobody can decrypt is carried until a patch replaces it. */
module ContentRuns {
  import opened Values
  import opened Entities
  import opened Validation
  import opened RecordMapper
  import opened Projection
  import opened Store
  import opened ReadBack
  import opened Interleaving

  // ---------- written rows stay readable ----------

  /** The row is one the service wrote, or still has the columns it had at the start. */
  ghost predicate Sourced(env: Env, start: Table, id: string, row: Row) {
    Written(env, row.cols) || (id in start && row.cols == start[id].cols)
  }

  ghost predicate WellSourced(env: Env, start: Table, t: Table) {
    forall id | id in t :: Sourced(env, start, id, t[id])
  }

  ghost predicate GoodWrite(env: Env, w: Write) {
    match w
    case Insert(_, row) => Written(env, row.cols)
    case Replace(_, cols, _, _) => Written(env, cols)
    case Tombstone(_, _) => true
  }

  ghost predicate GoodCall(env: Env, call: Call) {
    call.Checking? || call.Inserting? ==> Validate(env.py, env.types, call.draft) == Ok(call.validated)
  }

  ghost predicate ContentInvariant(env: Env, start: Table, s: State) {
    && WellSourced(env, start, s.rows)
    && forall tx | tx in s.txs ::
         && GoodCall(env, s.txs[tx].call)
         && forall w | w in s.txs[tx].pending :: GoodWrite(env, w)
  }

  lemma {:induction false} ApplyAllSourced(env: Env, start: Table, t: Table, ws: seq<Write>)
    requires WellSourced(env, start, t)
    requires forall w | w in ws :: GoodWrite(env, w)
    ensures WellSourced(env, start, ApplyAll(t, ws))
  {
    if ws != [] {
      ApplyAllSourced(env, start, t, ws[..|ws| - 1]);
      assert GoodWrite(env, ws[|ws| - 1]);
    }
  }

  lemma NextWriteGood(env: Env, s: State, step: Step)
    requires NextWrite(env, s, step).Some?
    requires GoodCall(env, s.txs[step.tx].call)
    ensures GoodWrite(env, NextWrite(env, s, step).value)
  {
    match (s.txs[step.tx].call, step)
    case (Inserting(d, v), DoInsert(_, id, now, nonce)) =>
      var p := ToPersisted(env.py, d, v).value;
      assert Columnise(env, nonce, d) == Encode(env.py, env.provider, nonce, p);
    case (Replacing(actor, id, patch, existing), DoReplace(_, now, nonce)) =>
      var d := Merge(existing, env.resolver.patch(actor, ForUpdate, existing, patch));
      assert Columnise(env, nonce, d) == UpdateColumns(env, actor, existing, patch, nonce);
    case _ =>
  }

  lemma ContentStep(env: Env, start: Table, s: State, step: Step)
    requires ContentInvariant(env, start, s)
    requires Next(env, s, step).Some?
    ensures ContentInvariant(env, start, Next(env, s, step).value)
  {
    var s' := Next(env, s, step).value;
    RowsChangeOnCommit(env, s, step);
    if step.Commit? {
      ApplyAllSourced(env, start, s.rows, s.txs[step.tx].pending);
    }
    if NextWrite(env, s, step).Some? {
      NextWriteGood(env, s, step);
    }
    forall tx | tx in s'.txs
      ensures GoodCall(env, s'.txs[tx].call)
      ensures forall w | w in s'.txs[tx].pending :: GoodWrite(env, w)
    {
      TxChange(env, s, step, tx);
    }
  }

  lemma {:induction false} ContentHolds(env: Env, states: seq<State>, steps: seq<Step>, n: nat)
    requires IsRun(env, states, steps) && n < |states|
    ensures ContentInvariant(env, states[0].rows, states[n])
  {
    if n > 0 {
      ContentHolds(env, states, steps, n - 1);
      assert Next(env, states[n - 1], steps[n - 1]) == Some(states[n - 1 + 1]);
      ContentStep(env, states[0].rows, states[n - 1], steps[n - 1]);
    }
  }

  predicate IsReplace(w: Write, id: string) {
    w.Replace? && w.id == id
  }

  ghost predicate HasReplace(ws: seq<Write>, id: string) {
    exists i | 0 <= i < |ws| :: IsReplace(ws[i], id)
  }

  /** The i-th step commits a replacement of the row. */
  ghost predicate CommitsReplace(states: seq<State>, steps: seq<Step>, i: nat, id: string)
    requires |states| == |steps| + 1 && i < |steps|
  {
    steps[i].Commit? && steps[i].tx in states[i].txs && HasReplace(states[i].txs[steps[i].tx].pending, id)
  }

  /** Statements keep a written row written, and a replacement makes it so. */
  lemma {:induction false} ApplyAllWritten(env: Env, t: Table, ws: seq<Write>, id: string)
    requires id in t
    requires forall w | w in ws :: GoodWrite(env, w)
    requires Written(env, t[id].cols) || HasReplace(ws, id)
    ensures id in ApplyAll(t, ws) && Written(env, ApplyAll(t, ws)[id].cols)
  {
    if ws != [] {
      var last := |ws| - 1;
      ApplyAllKeepsTombstones(t, ws[..last]);
      assert GoodWrite(env, ws[last]);
      if !IsReplace(ws[last], id) {
        if HasReplace(ws, id) {
          var i :| 0 <= i < |ws| && IsReplace(ws[i], id);
          assert IsReplace(ws[..last][i], id);
        }
        ApplyAllWritten(env, t, ws[..last], id);
      }
    }
  }

  ghost predicate WrittenIn(env: Env, s: State, id: string) {
    id in s.rows && Written(env, s.rows[id].cols)
  }

  /** A row that is written stays so over one step of a run, and a committed replacement makes it so. */
  lemma WrittenStep(env: Env, states: seq<State>, steps: seq<Step>, i: nat, id: string)
    requires IsRun(env, states, steps) && i < |steps|
    requires id in states[i].rows
    requires WrittenIn(env, states[i], id) || CommitsReplace(states, steps, i, id)
    ensures WrittenIn(env, states[i + 1], id)
  {
    ContentHolds(env, states, steps, i);
    assert Next(env, states[i], steps[i]) == Some(states[i + 1]);
    RowsChangeOnCommit(env, states[i], steps[i]);
    if steps[i].Commit? {
      ApplyAllWritten(env, states[i].rows, states[i].txs[steps[i].tx].pending, id);
    }
  }

  lemma {:induction false} WrittenForGood(env: Env, states: seq<State>, steps: seq<Step>, i: nat, more: nat, id: string)
    requires IsRun(env, states, steps) && i + more < |states|
    requires WrittenIn(env, states[i], id)
    ensures WrittenIn(env, states[i + more], id)
    decreases more
  {
    if more > 0 {
      WrittenStep(env, states, steps, i, id);
      WrittenForGood(env, states, steps, i + 1, more - 1, id);
    }
  }

  /** The run inserted the row, or committed a replacement of it. */
  ghost predicate WrittenDuring(states: seq<State>, steps: seq<Step>, n: nat, id: string)
    requires |states| == |steps| + 1 && n <= |steps|
  {
    id !in states[0].rows || exists i | 0 <= i < n :: CommitsReplace(states, steps, i, id)
  }

  /** What a run inserted or replaced, and what no longer has its initial columns, was written by the
      service. */
  lemma WrittenDuringIsWritten(env: Env, states: seq<State>, steps: seq<Step>, n: nat, id: string)
    requires IsRun(env, states, steps) && n < |states|
    requires id in states[n].rows
    requires WrittenDuring(states, steps, n, id) || states[n].rows[id].cols != states[0].rows[id].cols
    ensures Written(env, states[n].rows[id].cols)
  {
    if id in states[0].rows && WrittenDuring(states, steps, n, id) {
      var i :| 0 <= i < n && CommitsReplace(states, steps, i, id);
      ReplacedIsWritten(env, states, steps, i, n, id);
    } else {
      ContentHolds(env, states, steps, n);
      assert Sourced(env, states[0].rows, id, states[n].rows[id]);
    }
  }

  lemma ReplacedIsWritten(env: Env, states: seq<State>, steps: seq<Step>, i: nat, n: nat, id: string)
    requires IsRun(env, states, steps) && i < n < |states|
    requires id in states[0].rows && CommitsReplace(states, steps, i, id)
    ensures WrittenIn(env, states[n], id)
  {
    TombstonesPermanent(env, states, steps, 0, i, id);
    WrittenStep(env, states, steps, i, id);
    WrittenForGood(env, states, steps, i + 1, n - (i + 1), id);
  }

  /** In every state of every interleaved run, a row inserted or replaced on the way decodes, validates,
      and is shown healthy exactly when its labels are strings and the public models accept it. */
  lemma EveryWriteReadsBack(env: Env, states: seq<State>, steps: seq<Step>, n: nat, id: string)
    requires Sound(env)
    requires IsRun(env, states, steps) && n < |states|
    requires id in states[n].rows
    requires WrittenDuring(states, steps, n, id) || states[n].rows[id].cols != states[0].rows[id].cols
    ensures var row := states[n].rows[id];
            var r := Read(env, states[n].rows, id);
            && row.cols.labels.Dict?
            && !r.Unreadable()
            && Validate(env.py, env.types, r.AsDraft()).Ok?
            && (ViewOf(env.py, env.types, r).Healthy? <==>
                  AllStrings(row.cols.labels.entries) && PublicAccepts(env.py, env.types, r.AsDraft()))
  {
    var row := states[n].rows[id];
    WrittenDuringIsWritten(env, states, steps, n, id);
    WrittenRowsHealthy(env, id, row);
    WrittenRowReadable(env, id, row);
  }

  // ---------- unreadable ciphertexts ----------

  predicate IsRepair(w: Write, id: string) {
    IsReplace(w, id) && w.repairs
  }

  ghost predicate HasRepair(ws: seq<Write>, id: string) {
    exists i | 0 <= i < |ws| :: IsRepair(ws[i], id)
  }

  predicate ReplacesAt(ws: seq<Write>, id: string, j: nat) {
    j < |ws| && IsReplace(ws[j], id)
  }

  /** The first replacement of the row, if there is one, sets the secrets. */
  ghost predicate RepairFirst(ws: seq<Write>, id: string) {
    forall j: nat :: ReplacesAt(ws, id, j) ==> HasRepair(ws[..j + 1], id)
  }

  /** The row still has the ciphertext, and whoever is about to rewrite it has seen that it cannot be
      read, or has already replaced the secrets in the same transaction. */
  ghost predicate Carried(env: Env, s: State, id: string, ciphertext: Option<string>) {
    && id in s.rows && s.rows[id].cols.ciphertext == ciphertext
    && forall tx | tx in s.txs ::
         && RepairFirst(s.txs[tx].pending, id)
         && (s.txs[tx].call.Replacing? && s.txs[tx].call.id == id ==>
               HasRepair(s.txs[tx].pending, id) || s.txs[tx].call.existing.Unreadable())
  }

  lemma {:induction false} NoReplaceNoChange(t: Table, ws: seq<Write>, id: string)
    requires id in t
    requires forall w | w in ws :: !IsReplace(w, id)
    ensures id in ApplyAll(t, ws) && ApplyAll(t, ws)[id].cols == t[id].cols
  {
    if ws != [] {
      NoReplaceNoChange(t, ws[..|ws| - 1], id);
      assert ws[|ws| - 1] in ws;
    }
  }

  lemma RepairInPrefix(ws: seq<Write>, n: nat, id: string)
    requires n <= |ws|
    ensures HasRepair(ws[..n], id) ==> HasRepair(ws, id)
  {
    if HasRepair(ws[..n], id) {
      var i :| 0 <= i < n && IsRepair(ws[..n][i], id);
      assert ws[..n][i] == ws[i];
    }
  }

  lemma NoRepairNoChange(t: Table, ws: seq<Write>, id: string)
    requires id in t
    requires RepairFirst(ws, id) && !HasRepair(ws, id)
    ensures id in ApplyAll(t, ws) && ApplyAll(t, ws)[id].cols.ciphertext == t[id].cols.ciphertext
  {
    forall j: nat | j < |ws| ensures !ReplacesAt(ws, id, j) {
      RepairInPrefix(ws, j + 1, id);
    }
    forall w | w in ws ensures !IsReplace(w, id) {
      var j :| 0 <= j < |ws| && ws[j] == w;
      assert !ReplacesAt(ws, id, j);
    }
    NoReplaceNoChange(t, ws, id);
  }

  lemma RepairFirstExtends(ws: seq<Write>, w: Write, id: string)
    requires RepairFirst(ws, id)
    requires IsReplace(w, id) ==> w.repairs || HasRepair(ws, id)
    ensures RepairFirst(ws + [w], id)
    ensures HasRepair(ws, id) ==> HasRepair(ws + [w], id)
  {
    var all := ws + [w];
    assert all[..|ws|] == ws;
    RepairInPrefix(all, |ws|, id);
    forall j: nat | ReplacesAt(all, id, j) ensures HasRepair(all[..j + 1], id) {
      if j < |ws| {
        assert ReplacesAt(ws, id, j);
        assert all[..j + 1] == ws[..j + 1];
      } else {
        assert all[..j + 1] == all;
        assert w.repairs ==> IsRepair(all[j], id);
      }
    }
  }

  /** A transaction that starts to update the row reads it as unreadable, unless it repaired it. */
  lemma CarriedStart(env: Env, s: State, step: Step, id: string, ciphertext: Option<string>)
    requires env.provider.decrypt(ciphertext).None?
    requires Carried(env, s, id, ciphertext)
    requires step.StartUpdate? && step.id == id && Next(env, s, step).Some?
    requires !HasRepair(s.txs[step.tx].pending, id)
    ensures Next(env, s, step).value.txs[step.tx].call.existing.Unreadable()
  {
    NoRepairNoChange(s.rows, s.txs[step.tx].pending, id);
    IssueIff(env.py, env.provider, id, Seen(s, step.tx)[id], Issue(SecretsPart, UnreadableSecrets));
  }

  lemma CarriedTx(env: Env, s: State, step: Step, id: string, ciphertext: Option<string>, tx: nat)
    requires env.provider.decrypt(ciphertext).None?
    requires Carried(env, s, id, ciphertext)
    requires Next(env, s, step).Some? && tx in Next(env, s, step).value.txs
    ensures var after := Next(env, s, step).value.txs[tx];
            && RepairFirst(after.pending, id)
            && (after.call.Replacing? && after.call.id == id ==>
                  HasRepair(after.pending, id) || after.call.existing.Unreadable())
  {
    TxChange(env, s, step, tx);
    if tx in s.txs {
      var w := NextWrite(env, s, step);
      if w.Some? && step.tx == tx {
        CarriedWrite(env, s, step, id);
        RepairFirstExtends(s.txs[tx].pending, w.value, id);
      }
      if step.StartUpdate? && step.tx == tx && step.id == id && !HasRepair(s.txs[tx].pending, id) {
        CarriedStart(env, s, step, id, ciphertext);
      }
    }
  }

  /** One step of a run that has not committed a repair of the row. */
  lemma CarriedStep(env: Env, s: State, step: Step, id: string, ciphertext: Option<string>)
    requires env.provider.decrypt(ciphertext).None?
    requires Carried(env, s, id, ciphertext)
    requires Next(env, s, step).Some?
    requires step.Commit? ==> !HasRepair(s.txs[step.tx].pending, id)
    ensures Carried(env, Next(env, s, step).value, id, ciphertext)
  {
    RowsChangeOnCommit(env, s, step);
    if step.Commit? {
      NoRepairNoChange(s.rows, s.txs[step.tx].pending, id);
    }
    forall tx | tx in Next(env, s, step).value.txs
      ensures var after := Next(env, s, step).value.txs[tx];
              && RepairFirst(after.pending, id)
              && (after.call.Replacing? && after.call.id == id ==>
                    HasRepair(after.pending, id) || after.call.existing.Unreadable())
    {
      CarriedTx(env, s, step, id, ciphertext, tx);
    }
  }

  lemma CarriedWrite(env: Env, s: State, step: Step, id: string)
    requires NextWrite(env, s, step).Some?
    requires s.txs[step.tx].call.Replacing? && s.txs[step.tx].call.id == id ==>
             HasRepair(s.txs[step.tx].pending, id) || s.txs[step.tx].call.existing.Unreadable()
    ensures var w := NextWrite(env, s, step).value;
            w.Replace? && w.id == id ==> w.repairs || HasRepair(s.txs[step.tx].pending, id)
  {
  }

  ghost predicate RepairCommitted(states: seq<State>, steps: seq<Step>, n: nat, id: string)
    requires |states| == |steps| + 1 && n <= |steps|
  {
    exists i | 0 <= i < n ::
      steps[i].Commit? && steps[i].tx in states[i].txs && HasRepair(states[i].txs[steps[i].tx].pending, id)
  }

  /** A ciphertext the provider cannot decrypt stays in its row through every interleaved run until a
      transaction commits an update whose resolved patch set the secrets. */
  lemma {:induction false} CiphertextCarried(env: Env, states: seq<State>, steps: seq<Step>, n: nat, id: string)
    requires IsRun(env, states, steps) && n < |states|
    requires id in states[0].rows
    requires env.provider.decrypt(states[0].rows[id].cols.ciphertext).None?
    ensures RepairCommitted(states, steps, n, id) || Carried(env, states[n], id, states[0].rows[id].cols.ciphertext)
  {
    if n > 0 {
      CiphertextCarried(env, states, steps, n - 1, id);
      assert Next(env, states[n - 1], steps[n - 1]) == Some(states[n - 1 + 1]);
      if RepairCommitted(states, steps, n - 1, id) {
        var i :|
          0 <= i < n - 1 && steps[i].Commit? && steps[i].tx in states[i].txs
            && HasRepair(states[i].txs[steps[i].tx].pending, id);
        assert RepairCommitted(states, steps, n, id);
      } else if steps[n - 1].Commit? && HasRepair(states[n - 1].txs[steps[n - 1].tx].pending, id) {
        assert RepairCommitted(states, steps, n, id);
      } else {
        CarriedStep(env, states[n - 1], steps[n - 1], id, states[0].rows[id].cols.ciphertext);
      }
    }
  }
}
