/** What a committed repair leaves in the row: the secrets of the patch that made it. */
module RepairRuns {
  import opened Values
  import opened Schemas
  import opened Entities
  import opened Validation
  import opened Store
  import opened ReadBack
  import opened Interleaving
  import opened ContentRuns

  /** The ciphertext holds what validation made of the secrets of some draft. */
  ghost predicate HoldsValidatedSecrets(env: Env, cols: Columns) {
    exists d: Draft ::
      var v := Validate(env.py, env.types, d);
      v.Ok? && env.provider.decrypt(cols.ciphertext) == Some(SecretsDump(env.py, v.value))
  }

  lemma WrittenHoldsSecrets(env: Env, cols: Columns)
    requires Faithful(env.provider) && Written(env, cols)
    ensures HoldsValidatedSecrets(env, cols)
  {
    var nonce: int, d: Draft :| Columnise(env, nonce, d) == Ok(cols);
    var secrets := SecretsDump(env.py, Validate(env.py, env.types, d).value);
    assert env.provider.decrypt(Some(env.provider.encrypt(nonce, secrets))) == Some(secrets);
  }

  /** Once a repair of a row is committed, its secrets decrypt in every later state to the dump of a
      validated payload, whatever runs alongside. */
  lemma RepairedStaysReadable(env: Env, states: seq<State>, steps: seq<Step>, n: nat, id: string)
    requires Faithful(env.provider)
    requires IsRun(env, states, steps) && n < |states|
    requires id in states[0].rows
    requires RepairCommitted(states, steps, n, id)
    ensures id in states[n].rows && HoldsValidatedSecrets(env, states[n].rows[id].cols)
  {
    TombstonesPermanent(env, states, steps, 0, n, id);
    var i :|
      0 <= i < n && steps[i].Commit? && steps[i].tx in states[i].txs
        && HasRepair(states[i].txs[steps[i].tx].pending, id);
    var j :| 0 <= j < |states[i].txs[steps[i].tx].pending| && IsRepair(states[i].txs[steps[i].tx].pending[j], id);
    assert IsReplace(states[i].txs[steps[i].tx].pending[j], id);
    assert CommitsReplace(states, steps, i, id);
    WrittenDuringIsWritten(env, states, steps, n, id);
    WrittenHoldsSecrets(env, states[n].rows[id].cols);
  }

  // ---------- which secrets ----------

  /** Every statement a transaction holds was decided by one of its own steps. */
  lemma {:induction false} StatementsWereDecided(env: Env, states: seq<State>, steps: seq<Step>, n: nat, tx: nat,
                                                 w: Write) returns (m: nat)
    requires IsRun(env, states, steps) && n < |states|
    requires tx in states[n].txs && w in states[n].txs[tx].pending
    ensures m < n && NextWrite(env, states[m], steps[m]) == Some(w) && steps[m].tx == tx
  {
    assert n > 0;
    assert Next(env, states[n - 1], steps[n - 1]) == Some(states[n - 1 + 1]);
    TxChange(env, states[n - 1], steps[n - 1], tx);
    if tx in states[n - 1].txs && w in states[n - 1].txs[tx].pending {
      m := StatementsWereDecided(env, states, steps, n - 1, tx, w);
    } else {
      m := n - 1;
    }
  }

  ghost predicate LastReplace(ws: seq<Write>, id: string, j: nat) {
    ReplacesAt(ws, id, j) && forall k: nat :: j < k ==> !ReplacesAt(ws, id, k)
  }

  lemma {:induction false} LastReplaceWins(t: Table, ws: seq<Write>, id: string, j: nat)
    requires id in t && LastReplace(ws, id, j)
    ensures id in ApplyAll(t, ws) && ApplyAll(t, ws)[id].cols == ws[j].cols
  {
    ApplyAllKeepsTombstones(t, ws[..|ws| - 1]);
    if j < |ws| - 1 {
      var init := ws[..|ws| - 1];
      forall k: nat | j < k ensures !ReplacesAt(init, id, k) {
        assert k < |init| ==> init[k] == ws[k] && !ReplacesAt(ws, id, k);
      }
      LastReplaceWins(t, init, id, j);
      assert !ReplacesAt(ws, id, |ws| - 1);
    }
  }

  /** Without a committed replacement a row keeps its columns. */
  lemma {:induction false} ColumnsStay(env: Env, states: seq<State>, steps: seq<Step>, i: nat, n: nat, id: string)
    requires IsRun(env, states, steps) && i <= n < |states|
    requires id in states[i].rows
    requires forall k | i <= k < n :: !CommitsReplace(states, steps, k, id)
    ensures id in states[n].rows && states[n].rows[id].cols == states[i].rows[id].cols
    decreases n
  {
    if i < n {
      ColumnsStay(env, states, steps, i, n - 1, id);
      assert Next(env, states[n - 1], steps[n - 1]) == Some(states[n - 1 + 1]);
      RowsChangeOnCommit(env, states[n - 1], steps[n - 1]);
      if steps[n - 1].Commit? {
        var ws := states[n - 1].txs[steps[n - 1].tx].pending;
        assert !CommitsReplace(states, steps, n - 1, id);
        forall w | w in ws ensures !IsReplace(w, id) {
          var k :| 0 <= k < |ws| && ws[k] == w;
          assert !IsReplace(ws[k], id);
        }
        NoReplaceNoChange(states[n - 1].rows, ws, id);
      }
    }
  }

  /** Validating the patch's own secrets for the record's type. */
  ghost predicate HoldsPatchSecrets(env: Env, cols: Columns, existing: Record, patch: Patch) {
    && patch.secrets.Set?
    && var v := Validate(env.py, env.types, Merge(existing, patch));
    && v.Ok?
    && v.value.secrets == (if env.types[existing.typ].secretsModel.None? then None
                           else env.py.validate(env.types[existing.typ].secretsModel.value,
                                                FromJson(patch.secrets.value)))
    && env.provider.decrypt(cols.ciphertext) == Some(SecretsDump(env.py, v.value))
  }

  /** A repair that is the last committed replacement of a row decides its secrets: some earlier step of
      the same transaction executed the update, and as long as no other replacement is committed the
      row decrypts to the dump of the validated secrets of that update's resolved patch. */
  lemma RepairReadsBack(env: Env, states: seq<State>, steps: seq<Step>, i: nat, j: nat, n: nat, id: string)
    returns (m: nat)
    requires Faithful(env.provider)
    requires IsRun(env, states, steps) && i < n < |states|
    requires id in states[i].rows && steps[i].Commit? && steps[i].tx in states[i].txs
    requires LastReplace(states[i].txs[steps[i].tx].pending, id, j) && states[i].txs[steps[i].tx].pending[j].repairs
    requires forall k | i < k < n :: !CommitsReplace(states, steps, k, id)
    ensures id in states[n].rows
    ensures m < i && steps[m].DoReplace? && steps[m].tx == steps[i].tx && steps[m].tx in states[m].txs
    ensures var call := states[m].txs[steps[m].tx].call;
            && call.Replacing? && call.id == id
            && HoldsPatchSecrets(env, states[n].rows[id].cols, call.existing,
                                 env.resolver.patch(call.actor, ForUpdate, call.existing, call.patch))
  {
    var tx := steps[i].tx;
    var ws := states[i].txs[tx].pending;
    m := StatementsWereDecided(env, states, steps, i, tx, ws[j]);
    assert Next(env, states[i], steps[i]) == Some(states[i + 1]);
    RowsChangeOnCommit(env, states[i], steps[i]);
    LastReplaceWins(states[i].rows, ws, id, j);
    ColumnsStay(env, states, steps, i + 1, n, id);
    var call := states[m].txs[tx].call;
    RevisionIsReadable(env, call.existing, env.resolver.patch(call.actor, ForUpdate, call.existing, call.patch),
                       steps[m].nonce);
  }
}
