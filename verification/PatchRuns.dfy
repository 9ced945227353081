/** Composition of updates as runs of the service see it. */
module PatchRuns {
  import opened Entities
  import opened Store
  import opened ReadBack
  import opened PatchAlgebra
  import opened SerialRuns

  /** A granted update is `Updated` on its row, and nothing else. */
  lemma UpdatedInRuns(env: Env, t: Table, actor: Actor, id: string, x: Patch, now: int, nonce: int)
    requires GetDecision(env, t, actor, id).Ok?
    requires env.resolver.patch(actor, ForUpdate, Read(env, t, id), x) == x
    requires env.policy.canUpdate(actor, Read(env, t, id), x)
    ensures var updated := Updated(env, id, t[id], x, now, nonce);
            && (UpdateDecision(env, t, actor, id, x, now, nonce).Ok? <==> updated.Ok?)
            && (updated.Ok? ==> After(env, t, [UpdateOp(actor, id, x, now, nonce)]) == t[id := updated.value])
  {
    var op := UpdateOp(actor, id, x, now, nonce);
    var decision := UpdateDecision(env, t, actor, id, x, now, nonce);
    assert [op][..0] == [];
    assert After(env, t, []) == t;
    if decision.Ok? {
      ApplyAllOne(t, [], decision.value);
      assert Statement(env, t, op) == [] + [decision.value];
    }
  }

  lemma TwoOps(env: Env, t: Table, u1: Op, u2: Op)
    ensures After(env, t, [u1, u2]) == After(env, After(env, t, [u1]), [u2])
  {
    assert [u1, u2][..1] == [u1];
    assert [u2][..0] == [];
  }

  /** The resolver leaves the patch of this actor's updates alone. */
  ghost predicate Unresolved(env: Env, actor: Actor, x: Patch) {
    forall r: Record :: env.resolver.patch(actor, ForUpdate, r, x) == x
  }

  /** Two updates in a row are `Updated` twice on the row. */
  lemma UpdatedTwice(env: Env, t: Table, actor: Actor, id: string, p: Patch, q: Patch, now1: int, nonce1: int,
                     now2: int, nonce2: int)
    requires Unresolved(env, actor, p) && Unresolved(env, actor, q)
    requires UpdateDecision(env, t, actor, id, p, now1, nonce1).Ok?
    requires var t1 := After(env, t, [UpdateOp(actor, id, p, now1, nonce1)]);
             UpdateDecision(env, t1, actor, id, q, now2, nonce2).Ok?
    ensures id in t && GetDecision(env, t, actor, id).Ok?
    ensures var first := Updated(env, id, t[id], p, now1, nonce1);
            && first.Ok?
            && var second := Updated(env, id, first.value, q, now2, nonce2);
            && second.Ok?
            && After(env, t, [UpdateOp(actor, id, p, now1, nonce1), UpdateOp(actor, id, q, now2, nonce2)]) ==
               t[id := second.value]
  {
    UpdatedInRuns(env, t, actor, id, p, now1, nonce1);
    UpdatedInRuns(env, After(env, t, [UpdateOp(actor, id, p, now1, nonce1)]), actor, id, q, now2, nonce2);
    TwoOps(env, t, UpdateOp(actor, id, p, now1, nonce1), UpdateOp(actor, id, q, now2, nonce2));
  }

  /** Two updates in a row by one actor, no patch rewritten by the resolver: when both go through and the
      policy grants the combined one as well, that one update leaves the same table. */
  lemma UpdatesComposeInRuns(env: Env, t: Table, actor: Actor, id: string, p: Patch, q: Patch, now1: int, nonce1: int,
                             now2: int, nonce2: int)
    requires Lawful(env) && id in t
    requires KeepsRowDriver(env, t[id], p, q) && LabelsSurvive(p, q)
    requires Unresolved(env, actor, p) && Unresolved(env, actor, q) && Unresolved(env, actor, Combine(p, q))
    requires env.policy.canUpdate(actor, Read(env, t, id), Combine(p, q))
    ensures var t1 := After(env, t, [UpdateOp(actor, id, p, now1, nonce1)]);
            && UpdateDecision(env, t, actor, id, p, now1, nonce1).Ok?
            && UpdateDecision(env, t1, actor, id, q, now2, nonce2).Ok? ==>
              && UpdateDecision(env, t, actor, id, Combine(p, q), now2, nonce2).Ok?
              && After(env, t, [UpdateOp(actor, id, p, now1, nonce1), UpdateOp(actor, id, q, now2, nonce2)]) ==
                 After(env, t, [UpdateOp(actor, id, Combine(p, q), now2, nonce2)])
  {
    var t1 := After(env, t, [UpdateOp(actor, id, p, now1, nonce1)]);
    if UpdateDecision(env, t, actor, id, p, now1, nonce1).Ok?
      && UpdateDecision(env, t1, actor, id, q, now2, nonce2).Ok?
    {
      UpdatedTwice(env, t, actor, id, p, q, now1, nonce1, now2, nonce2);
      UpdatesCompose(env, id, t[id], p, q, now1, nonce1, now2, nonce2);
      UpdatedInRuns(env, t, actor, id, Combine(p, q), now2, nonce2);
    }
  }
}
