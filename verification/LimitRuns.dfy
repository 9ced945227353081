/** The connection limit, counted first and enforced by a later insert: what it guarantees when
    creates overlap, in the service's own units of work and in callers'. */
module LimitRuns {
  import opened Values
  import opened Entities
  import opened Store
  import opened Interleaving

  function Max(a: int, b: int): int {
    if a < b then b else a
  }

  ghost predicate LimitsWithin(passed: set<Option<int>>, limit: int) {
    forall l | l in passed :: l.Some? && l.value <= limit
  }

  // ---------- what a transaction would make of the rows ----------

  function Deleted(ws: seq<Write>): set<string> {
    set w | w in ws && w.Tombstone? :: w.id
  }

  /** Active rows a transaction sees and nobody else does. */
  function Fresh(t: Table, ws: seq<Write>): set<string> {
    Active(ApplyAll(t, ws)) - Active(t)
  }

  lemma DeletedOne(ws: seq<Write>)
    requires ws != []
    ensures var last := ws[|ws| - 1];
            Deleted(ws) == Deleted(ws[..|ws| - 1]) + if last.Tombstone? then {last.id} else {}
  {
    var init, last := ws[..|ws| - 1], ws[|ws| - 1];
    assert ws == init + [last];
  }

  lemma {:induction false} ActiveAfter(t: Table, ws: seq<Write>, id: string)
    requires id in Active(t)
    ensures id in ApplyAll(t, ws)
    ensures id in Active(ApplyAll(t, ws)) <==> id !in Deleted(ws)
  {
    if ws != [] {
      ActiveAfter(t, ws[..|ws| - 1], id);
      DeletedOne(ws);
    }
  }

  /** A transaction sees the active rows it has not deleted, and its fresh ones. */
  lemma ViewSplits(t: Table, ws: seq<Write>)
    ensures Active(ApplyAll(t, ws)) == (Active(t) - Deleted(ws)) + Fresh(t, ws)
    ensures |Active(ApplyAll(t, ws))| == |Active(t) - Deleted(ws)| + |Fresh(t, ws)|
  {
    forall id | id in Active(t) ensures id in Active(ApplyAll(t, ws)) <==> id !in Deleted(ws) {
      ActiveAfter(t, ws, id);
    }
    assert Active(ApplyAll(t, ws)) == (Active(t) - Deleted(ws)) + Fresh(t, ws);
    assert (Active(t) - Deleted(ws)) !! Fresh(t, ws);
  }

  lemma {:induction false} SameFromAbsent(t: Table, u: Table, ws: seq<Write>, id: string)
    requires id !in t && id !in u
    ensures id in ApplyAll(t, ws) <==> id in ApplyAll(u, ws)
    ensures id in ApplyAll(t, ws) ==> ApplyAll(t, ws)[id] == ApplyAll(u, ws)[id]
  {
    if ws != [] {
      SameFromAbsent(t, u, ws[..|ws| - 1], id);
    }
  }

  /** What others commit makes no row fresh: an id they inserted or deleted is theirs. */
  lemma FreshShrinks(t: Table, us: seq<Write>, ws: seq<Write>)
    ensures Fresh(ApplyAll(t, us), ws) <= Fresh(t, ws)
  {
    var t' := ApplyAll(t, us);
    forall id | id in Fresh(t', ws) ensures id in Fresh(t, ws) {
      if id in t' {
        ApplyAllKeepsTombstones(t', ws);
      }
      if id in t {
        ApplyAllKeepsTombstones(t, us);
      }
      SameFromAbsent(t, t', ws, id);
    }
  }

  // ---------- creates in flight ----------

  /** A create past its check and not committed: of a transaction, with the id it inserted or none yet. */
  type Slot = (nat, Option<string>)

  function Inserted(n: nat, ids: set<string>): set<Slot> {
    set id | id in ids :: (n, Some(id))
  }

  function Slots(rows: Table, n: nat, tx: Tx): set<Slot> {
    Inserted(n, Fresh(rows, tx.pending)) + if tx.call.Inserting? then {(n, None)} else {}
  }

  /** The creates in flight of the given transactions. */
  function InFlight(s: State, among: set<nat>): set<Slot> {
    set n, p | n in among && n in s.txs && p in Slots(s.rows, n, s.txs[n]) :: p
  }

  /** ... and of all but one. */
  function OthersInFlight(s: State, tx: nat): set<Slot> {
    InFlight(s, s.txs.Keys - {tx})
  }

  function DeletedBy(s: State, among: set<nat>): set<string> {
    set n, id | n in among && n in s.txs && id in Deleted(s.txs[n].pending) :: id
  }

  function Kept(s: State, among: set<nat>): set<string> {
    Active(s.rows) - DeletedBy(s, among)
  }

  /** How many rows there would be if exactly the given transactions went through. */
  function Size(s: State, among: set<nat>): nat {
    |Kept(s, among)| + |InFlight(s, among)|
  }

  lemma {:induction false} InsertedCount(n: nat, ids: set<string>)
    ensures |Inserted(n, ids)| == |ids|
    decreases |ids|
  {
    if ids == {} {
      assert Inserted(n, ids) == {};
    } else {
      var id :| id in ids;
      InsertedCount(n, ids - {id});
      assert Inserted(n, ids) == Inserted(n, ids - {id}) + {(n, Some(id))};
    }
  }

  lemma InFlightIff(s: State, among: set<nat>, p: Slot)
    ensures p in InFlight(s, among) <==> p.0 in among && p.0 in s.txs && p in Slots(s.rows, p.0, s.txs[p.0])
  {
  }

  lemma SizeShrinks(s: State, among: set<nat>, s': State, among': set<nat>)
    requires s'.rows == s.rows
    requires DeletedBy(s, among) <= DeletedBy(s', among')
    requires InFlight(s', among') <= InFlight(s, among)
    ensures Size(s', among') <= Size(s, among)
  {
    Subset(Kept(s', among'), Kept(s, among));
    Subset(InFlight(s', among'), InFlight(s, among));
  }

  // ---------- steps ----------

  lemma CheckKept(s: State, n: nat, among: set<nat>)
    requires n in s.txs && n in among
    ensures |Kept(s, among)| <= |Active(s.rows) - Deleted(s.txs[n].pending)|
  {
    Subset(Kept(s, among), Active(s.rows) - Deleted(s.txs[n].pending));
  }

  /** The creates in flight are the transaction's own inserts, the one it is about to make, and others'. */
  lemma CheckInFlight(s: State, n: nat, among: set<nat>)
    requires n in s.txs
    ensures |InFlight(s, among)| <= |Fresh(s.rows, s.txs[n].pending)| + 1 + |OthersInFlight(s, n)|
  {
    var mine, others := Inserted(n, Fresh(s.rows, s.txs[n].pending)), OthersInFlight(s, n);
    InsertedCount(n, Fresh(s.rows, s.txs[n].pending));
    forall p | p in InFlight(s, among) ensures p in mine + {(n, None)} + others {
      InFlightIff(s, among, p);
      InFlightIff(s, s.txs.Keys - {n}, p);
    }
    Subset(InFlight(s, among), mine + {(n, None)} + others);
  }

  lemma CheckLeavesOthers(env: Env, s: State, step: Step)
    requires step.CheckLimit? && Next(env, s, step).Some?
    ensures OthersInFlight(Next(env, s, step).value, step.tx) <= OthersInFlight(s, step.tx)
  {
    var s' := Next(env, s, step).value;
    forall p | p in OthersInFlight(s', step.tx) ensures p in OthersInFlight(s, step.tx) {
      InFlightIff(s', s'.txs.Keys - {step.tx}, p);
      InFlightIff(s, s.txs.Keys - {step.tx}, p);
    }
  }

  /** A check admits a create only while the rows its transaction sees leave room. */
  lemma CheckSize(env: Env, s: State, step: Step, among: set<nat>, limit: int, k: nat)
    requires step.CheckLimit? && Next(env, s, step).Some?
    requires LimitsWithin(Next(env, s, step).value.passed, limit)
    requires |OthersInFlight(s, step.tx)| < k
    requires step.tx in among
    ensures Size(Next(env, s, step).value, among) <= limit + k - 1
  {
    var s' := Next(env, s, step).value;
    assert s.txs[step.tx].call.limit in s'.passed;
    ViewSplits(s.rows, s.txs[step.tx].pending);
    CheckKept(s', step.tx, among);
    CheckInFlight(s', step.tx, among);
    CheckLeavesOthers(env, s, step);
    Subset(OthersInFlight(s', step.tx), OthersInFlight(s, step.tx));
  }

  lemma CommitDeleted(env: Env, s: State, step: Step, among: set<nat>)
    requires step.Commit? && Next(env, s, step).Some?
    ensures DeletedBy(s, among + {step.tx}) <=
            DeletedBy(Next(env, s, step).value, among) + Deleted(s.txs[step.tx].pending)
  {
    var s' := Next(env, s, step).value;
    forall id | id in DeletedBy(s, among + {step.tx})
      ensures id in DeletedBy(s', among) + Deleted(s.txs[step.tx].pending)
    {
      var n :| n in among + {step.tx} && n in s.txs && id in Deleted(s.txs[n].pending);
      if n != step.tx {
        assert n in s'.txs && s'.txs[n] == s.txs[n];
      }
    }
  }

  lemma CommitKept(env: Env, s: State, step: Step, among: set<nat>)
    requires step.Commit? && Next(env, s, step).Some?
    ensures |Kept(Next(env, s, step).value, among)| <=
            |Kept(s, among + {step.tx})| + |Fresh(s.rows, s.txs[step.tx].pending)|
  {
    var s', ws := Next(env, s, step).value, s.txs[step.tx].pending;
    ViewSplits(s.rows, ws);
    CommitDeleted(env, s, step, among);
    Subset(Kept(s', among), Kept(s, among + {step.tx}) + Fresh(s.rows, ws));
  }

  lemma CommitInFlight(env: Env, s: State, step: Step, among: set<nat>)
    requires step.Commit? && Next(env, s, step).Some?
    ensures |InFlight(Next(env, s, step).value, among)| + |Fresh(s.rows, s.txs[step.tx].pending)| <=
            |InFlight(s, among + {step.tx})|
  {
    var s', ws := Next(env, s, step).value, s.txs[step.tx].pending;
    var left, added := InFlight(s', among), Inserted(step.tx, Fresh(s.rows, ws));
    InsertedCount(step.tx, Fresh(s.rows, ws));
    forall p | p in left ensures p in InFlight(s, among + {step.tx}) && p !in added {
      InFlightIff(s', among, p);
      InFlightIff(s, among + {step.tx}, p);
      FreshShrinks(s.rows, ws, s.txs[p.0].pending);
    }
    forall p | p in added ensures p in InFlight(s, among + {step.tx}) {
      InFlightIff(s, among + {step.tx}, p);
    }
    Subset(left + added, InFlight(s, among + {step.tx}));
  }

  /** A commit makes the transaction's view the rows: what it deleted is gone, what was fresh is there. */
  lemma CommitSize(env: Env, s: State, step: Step, among: set<nat>)
    requires step.Commit? && Next(env, s, step).Some?
    ensures Size(Next(env, s, step).value, among) <= Size(s, among + {step.tx})
  {
    CommitKept(env, s, step, among);
    CommitInFlight(env, s, step, among);
  }

  lemma FreshOne(t: Table, ws: seq<Write>, w: Write)
    ensures Fresh(t, ws + [w]) <= Fresh(t, ws) + if w.Insert? then {w.id} else {}
    ensures Deleted(ws) <= Deleted(ws + [w])
  {
    ApplyAllOne(t, ws, w);
  }

  /** How a step other than a check acts on one transaction's share. */
  lemma ShareChange(env: Env, s: State, step: Step, n: nat)
    requires Next(env, s, step).Some? && !step.CheckLimit? && !step.DoInsert?
    requires n in Next(env, s, step).value.txs
    ensures var after := Next(env, s, step).value.txs[n];
            if n !in s.txs then Slots(s.rows, n, after) == {}
            else (Slots(s.rows, n, after) <= Slots(s.rows, n, s.txs[n])
                  && Deleted(s.txs[n].pending) <= Deleted(after.pending))
  {
    TxChange(env, s, step, n);
    if n in s.txs && NextWrite(env, s, step).Some? {
      FreshOne(s.rows, s.txs[n].pending, NextWrite(env, s, step).value);
    }
  }

  /** Replacements, deletions, returns, errors and abandonments only take away. */
  lemma OtherSize(env: Env, s: State, step: Step, among: set<nat>)
    requires Next(env, s, step).Some? && !step.CheckLimit? && !step.DoInsert? && !step.Commit?
    ensures var s' := Next(env, s, step).value; Size(s', among) <= Size(s, among * s'.txs.Keys)
  {
    var s' := Next(env, s, step).value;
    var left := among * s'.txs.Keys;
    RowsChangeOnCommit(env, s, step);
    forall id | id in DeletedBy(s, left) ensures id in DeletedBy(s', among) {
      var n :| n in left && n in s.txs && id in Deleted(s.txs[n].pending);
      ShareChange(env, s, step, n);
    }
    forall p | p in InFlight(s', among) ensures p in InFlight(s, left) {
      InFlightIff(s', among, p);
      ShareChange(env, s, step, p.0);
      InFlightIff(s, left, p);
    }
    SizeShrinks(s, left, s', among);
  }

  lemma InsertedSlot(env: Env, s: State, step: Step, among: set<nat>, p: Slot)
    requires Next(env, s, step).Some? && step.DoInsert?
    requires p in InFlight(Next(env, s, step).value, among)
    ensures p == (step.tx, Some(NextWrite(env, s, step).value.id)) || (p in InFlight(s, among) && p != (step.tx, None))
  {
    InFlightIff(Next(env, s, step).value, among, p);
    InFlightIff(s, among, p);
    FreshOne(s.rows, s.txs[step.tx].pending, NextWrite(env, s, step).value);
  }

  lemma InsertKept(env: Env, s: State, step: Step, among: set<nat>)
    requires Next(env, s, step).Some? && step.DoInsert?
    ensures |Kept(Next(env, s, step).value, among)| <= |Kept(s, among)|
  {
    var s' := Next(env, s, step).value;
    FreshOne(s.rows, s.txs[step.tx].pending, NextWrite(env, s, step).value);
    forall id | id in DeletedBy(s, among) ensures id in DeletedBy(s', among) {
      var n :| n in among && n in s.txs && id in Deleted(s.txs[n].pending);
      assert n in s'.txs && id in Deleted(s'.txs[n].pending);
    }
    Subset(Kept(s', among), Kept(s, among));
  }

  lemma Renamed<T>(before: set<T>, after: set<T>, was: T, now: T)
    requires was in before
    requires forall p | p in after :: p == now || (p in before && p != was)
    ensures |after| <= |before|
  {
    Subset(after, before - {was} + {now});
  }

  lemma InsertInFlight(env: Env, s: State, step: Step, among: set<nat>)
    requires Next(env, s, step).Some? && step.DoInsert?
    ensures |InFlight(Next(env, s, step).value, among)| <= |InFlight(s, among)|
  {
    var before, after := InFlight(s, among), InFlight(Next(env, s, step).value, among);
    forall p | p in after
      ensures p == (step.tx, Some(NextWrite(env, s, step).value.id)) || (p in before && p != (step.tx, None))
      ensures p.0 in among
    {
      InsertedSlot(env, s, step, among, p);
      InFlightIff(Next(env, s, step).value, among, p);
    }
    if step.tx in among {
      InFlightIff(s, among, (step.tx, None));
      Renamed(before, after, (step.tx, None), (step.tx, Some(NextWrite(env, s, step).value.id)));
    } else {
      Subset(after, before);
    }
  }

  /** An insert gives the create in flight its id. */
  lemma InsertSize(env: Env, s: State, step: Step, among: set<nat>)
    requires Next(env, s, step).Some? && step.DoInsert?
    ensures Size(Next(env, s, step).value, among) <= Size(s, among)
  {
    InsertKept(env, s, step, among);
    InsertInFlight(env, s, step, among);
  }

  // ---------- runs ----------

  /** Whenever a check passes on the way to the n-th state, fewer than `k` creates of other units of work
      are in flight. */
  ghost predicate ChecksAmong(states: seq<State>, steps: seq<Step>, n: nat, k: nat)
    requires |states| == |steps| + 1 && n <= |steps|
  {
    forall i | 0 <= i < n && steps[i].CheckLimit? :: |OthersInFlight(states[i], steps[i].tx)| < k
  }

  /** No limit below one admits anything. */
  function Bound(initial: int, limit: int, k: nat): int {
    if limit <= 0 then initial else Max(initial, limit + k - 1)
  }

  lemma CheckNeedsRoom(env: Env, s: State, step: Step, limit: int)
    requires step.CheckLimit? && Next(env, s, step).Some?
    requires LimitsWithin(Next(env, s, step).value.passed, limit)
    ensures limit > 0
  {
    assert s.txs[step.tx].call.limit in Next(env, s, step).value.passed;
  }

  lemma CheckOutside(env: Env, s: State, step: Step, among: set<nat>)
    requires step.CheckLimit? && Next(env, s, step).Some? && step.tx !in among
    ensures Size(Next(env, s, step).value, among) <= Size(s, among)
  {
    var s' := Next(env, s, step).value;
    forall p | p in InFlight(s', among) ensures p in InFlight(s, among) {
      InFlightIff(s', among, p);
      InFlightIff(s, among, p);
    }
    forall id | id in DeletedBy(s, among) ensures id in DeletedBy(s', among) {
      var m :| m in among && m in s.txs && id in Deleted(s.txs[m].pending);
      assert m in s'.txs && id in Deleted(s'.txs[m].pending);
    }
    SizeShrinks(s, among, s', among);
  }

  /** After a step the size is within the bound of the check just made, or no more than it was before for
      some of the transactions. */
  lemma StepSize(env: Env, s: State, step: Step, among: set<nat>, limit: int, k: nat) returns (before: set<nat>)
    requires Next(env, s, step).Some? && LimitsWithin(Next(env, s, step).value.passed, limit)
    requires step.CheckLimit? ==> |OthersInFlight(s, step.tx)| < k
    ensures var after := Size(Next(env, s, step).value, among);
            (limit > 0 && after <= limit + k - 1) || after <= Size(s, before)
  {
    before := among;
    if step.CheckLimit? {
      CheckNeedsRoom(env, s, step, limit);
      if step.tx in among {
        CheckSize(env, s, step, among, limit, k);
      } else {
        CheckOutside(env, s, step, among);
      }
    } else if step.DoInsert? {
      InsertSize(env, s, step, among);
    } else if step.Commit? {
      CommitSize(env, s, step, among);
      before := among + {step.tx};
    } else {
      OtherSize(env, s, step, among);
      before := among * Next(env, s, step).value.txs.Keys;
    }
  }

  /** Whichever of the open transactions go through, the rows stay within the bound. */
  lemma {:induction false} LimitInvariant(env: Env, states: seq<State>, steps: seq<Step>, n: nat, limit: int, k: nat,
                                          among: set<nat>)
    requires IsRun(env, states, steps) && n < |states|
    requires ChecksAmong(states, steps, n, k)
    requires LimitsWithin(states[n].passed, limit)
    ensures Size(states[n], among) <= Bound(|Active(states[0].rows)|, limit, k)
    decreases n
  {
    if n == 0 {
      assert DeletedBy(states[0], among) == {} && InFlight(states[0], among) == {};
    } else {
      var s, step := states[n - 1], steps[n - 1];
      assert Next(env, s, step) == Some(states[n - 1 + 1]);
      assert s.passed <= states[n].passed;
      var before := StepSize(env, s, step, among, limit, k);
      LimitInvariant(env, states, steps, n - 1, limit, k, before);
    }
  }

  /** The bound on committed active rows, whoever creates and in whose units of work: a limit checked while
      fewer than `k` creates of others are in flight is exceeded by at most `k - 1`. */
  lemma LimitHolds(env: Env, states: seq<State>, steps: seq<Step>, n: nat, limit: int, k: nat)
    requires IsRun(env, states, steps) && n < |states|
    requires ChecksAmong(states, steps, n, k)
    requires LimitsWithin(states[n].passed, limit)
    ensures |Active(states[n].rows)| <= Max(|Active(states[0].rows)|, limit + k - 1)
    ensures limit <= 0 ==> |Active(states[n].rows)| <= |Active(states[0].rows)|
  {
    LimitInvariant(env, states, steps, n, limit, k, {});
    assert Kept(states[n], {}) == Active(states[n].rows);
  }

  // ---------- the service's own creates ----------

  predicate InCreate(call: Call) {
    call.Checking? || call.Inserting? || call == Finished(true)
  }

  /** The service's own creates that are open. */
  function OpenCreates(s: State): set<nat> {
    set tx | tx in s.txs && s.txs[tx].owned && InCreate(s.txs[tx].call)
  }

  /** Callers' units of work create nothing. */
  ghost predicate CallersDontCreate(s: State) {
    forall tx | tx in s.txs && !s.txs[tx].owned ::
      !InCreate(s.txs[tx].call) && forall w | w in s.txs[tx].pending :: !w.Insert?
  }

  /** The service's own units of work hold at most the one statement of their call. */
  ghost predicate OneStatement(s: State) {
    forall tx | tx in s.txs && s.txs[tx].owned ::
      if s.txs[tx].call.Finished? then
        |s.txs[tx].pending| == 1 && (s.txs[tx].pending[0].Insert? <==> s.txs[tx].call.created)
      else s.txs[tx].pending == []
  }

  lemma OneStatementStep(env: Env, s: State, step: Step)
    requires OneStatement(s)
    requires Next(env, s, step).Some?
    ensures OneStatement(Next(env, s, step).value)
  {
  }

  lemma {:induction false} OneStatementHolds(env: Env, states: seq<State>, steps: seq<Step>, n: nat)
    requires IsRun(env, states, steps) && n < |states|
    ensures OneStatement(states[n])
  {
    if n > 0 {
      OneStatementHolds(env, states, steps, n - 1);
      assert Next(env, states[n - 1], steps[n - 1]) == Some(states[n - 1 + 1]);
      OneStatementStep(env, states[n - 1], steps[n - 1]);
    }
  }

  lemma {:induction false} NoInsertNoFresh(t: Table, ws: seq<Write>)
    requires forall w | w in ws :: !w.Insert?
    ensures Fresh(t, ws) == {}
  {
    if ws != [] {
      var init, last := ws[..|ws| - 1], ws[|ws| - 1];
      assert ws == init + [last];
      NoInsertNoFresh(t, init);
      FreshOne(t, init, last);
    }
  }

  /** Where callers create nothing, only an open create has a slot, and it has one. */
  lemma OneSlot(s: State, n: nat, p: Slot, q: Slot)
    requires OneStatement(s) && CallersDontCreate(s) && n in s.txs
    requires p in Slots(s.rows, n, s.txs[n]) && q in Slots(s.rows, n, s.txs[n])
    ensures n in OpenCreates(s) && p == q
  {
    var tx := s.txs[n];
    if tx.owned && tx.call.Finished? {
      assert tx.pending == [] + [tx.pending[0]];
      FreshOne(s.rows, [], tx.pending[0]);
      assert Fresh(s.rows, []) == {};
    } else {
      NoInsertNoFresh(s.rows, tx.pending);
    }
  }

  lemma SlotIsOpenCreate(s: State, p: Slot, q: Slot)
    requires OneStatement(s) && CallersDontCreate(s)
    requires p in InFlight(s, s.txs.Keys)
    ensures p.0 in OpenCreates(s)
    ensures q in InFlight(s, s.txs.Keys) && q.0 == p.0 ==> q == p
  {
    InFlightIff(s, s.txs.Keys, p);
    InFlightIff(s, s.txs.Keys, q);
    OneSlot(s, p.0, p, p);
    if q in InFlight(s, s.txs.Keys) && q.0 == p.0 {
      OneSlot(s, p.0, p, q);
    }
  }

  lemma {:induction false} FirstsBound(ps: set<Slot>, firsts: set<nat>)
    requires forall p | p in ps :: p.0 in firsts
    requires forall p, q | p in ps && q in ps :: p.0 == q.0 ==> p == q
    ensures |ps| <= |firsts|
    decreases |ps|
  {
    if p :| p in ps {
      FirstsBound(ps - {p}, firsts - {p.0});
    }
  }

  lemma OwnedAmong(s: State, n: nat, k: nat)
    requires OneStatement(s) && CallersDontCreate(s)
    requires |OpenCreates(s)| <= k
    requires n in s.txs && s.txs[n].call.Checking?
    ensures |OthersInFlight(s, n)| < k
  {
    var others := OthersInFlight(s, n);
    forall p | p in others ensures p in InFlight(s, s.txs.Keys) && p.0 != n {
      InFlightIff(s, s.txs.Keys - {n}, p);
      InFlightIff(s, s.txs.Keys, p);
    }
    forall p, q | p in others && q in others && p.0 == q.0 ensures p == q {
      SlotIsOpenCreate(s, p, q);
    }
    forall p | p in others ensures p.0 in OpenCreates(s) - {n} {
      SlotIsOpenCreate(s, p, p);
    }
    FirstsBound(others, OpenCreates(s) - {n});
    assert n in OpenCreates(s);
  }

  /** In particular with at most `k` of the service's creates open at any time and none by callers. */
  lemma OwnedLimitHolds(env: Env, states: seq<State>, steps: seq<Step>, n: nat, limit: int, k: nat)
    requires IsRun(env, states, steps) && n < |states|
    requires forall i | 0 <= i < |states| :: |OpenCreates(states[i])| <= k && CallersDontCreate(states[i])
    requires LimitsWithin(states[n].passed, limit)
    ensures ChecksAmong(states, steps, n, k)
    ensures |Active(states[n].rows)| <= Max(|Active(states[0].rows)|, limit + k - 1)
    ensures limit <= 0 ==> |Active(states[n].rows)| <= |Active(states[0].rows)|
  {
    forall i | 0 <= i < n && steps[i].CheckLimit? ensures |OthersInFlight(states[i], steps[i].tx)| < k {
      assert Next(env, states[i], steps[i]) == Some(states[i + 1]);
      OneStatementHolds(env, states, steps, i);
      OwnedAmong(states[i], steps[i].tx, k);
    }
    LimitHolds(env, states, steps, n, limit, k);
  }
}
