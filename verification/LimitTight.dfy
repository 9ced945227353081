/** The bound on overlapping creates is reached. */
module LimitTight {
  import opened Values
  import opened Entities
  import opened Store
  import opened Interleaving
  import opened LimitRuns

  function IdOf(n: nat): (id: string)
    ensures |id| == n
  {
    seq(n, _ => 'x')
  }

  /** A table of `n` active rows with the same columns. */
  function Filled(row: Row, n: nat): Table {
    if n == 0 then map[] else Filled(row, n - 1)[IdOf(n - 1) := row]
  }

  lemma {:induction false} FilledCount(row: Row, n: nat)
    requires row.deletedAt.None?
    ensures forall id | id in Filled(row, n) :: |id| < n
    ensures |Active(Filled(row, n))| == n
  {
    if n == 0 {
      assert Active(Filled(row, 0)) == {};
    } else {
      FilledCount(row, n - 1);
      assert Active(Filled(row, n)) == Active(Filled(row, n - 1)) + {IdOf(n - 1)};
    }
  }

  function Below(k: nat): (r: set<nat>)
    ensures forall x: nat :: x in r <==> x < k
    ensures |r| == k
  {
    if k == 0 then {} else Below(k - 1) + {k - 1}
  }

  /** Every open transaction is one of the service's own, numbered below `k`. */
  ghost predicate Numbered(s: State, k: nat) {
    forall tx | tx in s.txs :: tx < k && s.txs[tx].owned
  }

  lemma NumberedIsBounded(s: State, k: nat)
    requires Numbered(s, k)
    ensures |OpenCreates(s)| <= k && CallersDontCreate(s)
  {
    Subset(OpenCreates(s), Below(k));
  }

  ghost predicate GoodRun(env: Env, states: seq<State>, steps: seq<Step>, k: nat) {
    IsRun(env, states, steps) && forall s | s in states :: Numbered(s, k)
  }

  lemma Extend(env: Env, states: seq<State>, steps: seq<Step>, k: nat, step: Step)
    returns (states': seq<State>, steps': seq<Step>)
    requires GoodRun(env, states, steps, k)
    requires Next(env, Last(states), step).Some? && Numbered(Next(env, Last(states), step).value, k)
    ensures GoodRun(env, states', steps', k)
    ensures states'[0] == states[0] && Last(states') == Next(env, Last(states), step).value
  {
    states' := states + [Next(env, Last(states), step).value];
    steps' := steps + [step];
    assert forall i | 0 <= i < |steps| :: Next(env, states'[i], steps'[i]) == Next(env, states[i], steps[i]);
  }

  /** The transactions numbered from `lo` below `hi`, each past its check. */
  function Waiting(lo: nat, hi: nat, d: Draft, v: Validated): (txs: map<nat, Tx>)
    ensures forall tx :: tx in txs <==> lo <= tx < hi
    ensures forall tx | tx in txs :: txs[tx] == Tx(true, Inserting(d, v), [])
  {
    if hi <= lo then map[] else Waiting(lo, hi - 1, d, v)[hi - 1 := Tx(true, Inserting(d, v), [])]
  }

  /** `n` rows committed and the given transactions waiting to insert. */
  function Stage(row: Row, n: nat, txs: map<nat, Tx>, limit: int, passed: set<Option<int>>): State {
    State(Filled(row, n), txs, {Some(limit)}, passed)
  }

  lemma StartSteps(env: Env, s: State, tx: nat, actor: Actor, draft: Draft, d: Draft, v: Validated, limit: int)
    requires tx !in s.txs && Some(limit) in s.limits
    requires Admit(env, actor, draft) == Ok((d, v))
    ensures var s1 := s.(txs := s.txs[tx := Tx(true, Idle, [])]);
            && Next(env, s, Begin(tx, true)) == Some(s1)
            && Next(env, s1, StartCreate(tx, actor, Some(limit), draft)) ==
               Some(s.(txs := s.txs[tx := Tx(true, Checking(d, v, Some(limit)), [])]))
  {
    var s1 := s.(txs := s.txs[tx := Tx(true, Idle, [])]);
    assert s1.txs[tx := Tx(true, Checking(d, v, Some(limit)), [])] ==
           s.txs[tx := Tx(true, Checking(d, v, Some(limit)), [])];
  }

  lemma CheckPasses(env: Env, s: State, tx: nat, d: Draft, v: Validated, limit: int)
    requires tx in s.txs && s.txs[tx] == Tx(true, Checking(d, v, Some(limit)), [])
    requires |Active(s.rows)| < limit
    ensures Next(env, s, CheckLimit(tx)) ==
            Some(s.(txs := s.txs[tx := Tx(true, Inserting(d, v), [])], passed := s.passed + {Some(limit)}))
  {
    assert Seen(s, tx) == s.rows;
  }

  /** One more create begins, up to its check. */
  lemma AdmitStart(env: Env, states: seq<State>, steps: seq<Step>, k: nat, hi: nat, actor: Actor, draft: Draft,
                   d: Draft, v: Validated, limit: int)
    returns (states': seq<State>, steps': seq<Step>)
    requires GoodRun(env, states, steps, k) && hi < k
    requires hi !in Last(states).txs && Some(limit) in Last(states).limits
    requires Admit(env, actor, draft) == Ok((d, v))
    ensures GoodRun(env, states', steps', k) && states'[0] == states[0]
    ensures var s := Last(states);
            Last(states') == s.(txs := s.txs[hi := Tx(true, Checking(d, v, Some(limit)), [])])
  {
    StartSteps(env, Last(states), hi, actor, draft, d, v, limit);
    assert Last(states) in states && Numbered(Last(states), k);
    states', steps' := Extend(env, states, steps, k, Begin(hi, true));
    states', steps' := Extend(env, states', steps', k, StartCreate(hi, actor, Some(limit), draft));
  }

  /** ... and gets past it. */
  lemma AdmitCheck(env: Env, states: seq<State>, steps: seq<Step>, k: nat, hi: nat, d: Draft, v: Validated, limit: int)
    returns (states': seq<State>, steps': seq<Step>)
    requires GoodRun(env, states, steps, k) && hi < k
    requires hi in Last(states).txs && Last(states).txs[hi] == Tx(true, Checking(d, v, Some(limit)), [])
    requires |Active(Last(states).rows)| < limit
    ensures GoodRun(env, states', steps', k) && states'[0] == states[0]
    ensures var s := Last(states);
            Last(states') == s.(txs := s.txs[hi := Tx(true, Inserting(d, v), [])], passed := s.passed + {Some(limit)})
  {
    assert Last(states) in states && Numbered(Last(states), k);
    CheckPasses(env, Last(states), hi, d, v, limit);
    states', steps' := Extend(env, states, steps, k, CheckLimit(hi));
  }

  lemma WaitingOneMore(hi: nat, d: Draft, v: Validated, call: Call)
    ensures var w := Waiting(0, hi, d, v);
            && hi !in w
            && w[hi := Tx(true, call, [])][hi := Tx(true, Inserting(d, v), [])] == Waiting(0, hi + 1, d, v)
  {
  }

  lemma AdmitOne(env: Env, states: seq<State>, steps: seq<Step>, k: nat, row: Row, n: nat, hi: nat, actor: Actor,
                 draft: Draft, d: Draft, v: Validated, limit: int, passed: set<Option<int>>)
    returns (states': seq<State>, steps': seq<Step>)
    requires GoodRun(env, states, steps, k) && hi < k
    requires row.deletedAt.None? && n < limit
    requires Admit(env, actor, draft) == Ok((d, v))
    requires Last(states) == Stage(row, n, Waiting(0, hi, d, v), limit, passed)
    ensures GoodRun(env, states', steps', k) && states'[0] == states[0]
    ensures Last(states') == Stage(row, n, Waiting(0, hi + 1, d, v), limit, passed + {Some(limit)})
  {
    assert |Active(Filled(row, n))| < limit by {
      FilledCount(row, n);
    }
    WaitingOneMore(hi, d, v, Checking(d, v, Some(limit)));
    states', steps' := AdmitStart(env, states, steps, k, hi, actor, draft, d, v, limit);
    states', steps' := AdmitCheck(env, states', steps', k, hi, d, v, limit);
  }

  lemma FinishSteps(env: Env, s: State, tx: nat, id: string, row: Row, d: Draft, v: Validated)
    requires tx in s.txs && s.txs[tx] == Tx(true, Inserting(d, v), [])
    requires NewRow(env, s.rows, d, v, id, 0, 0) == Ok(Insert(id, row))
    ensures var s1 := s.(txs := s.txs[tx := Tx(true, Finished(true), [Insert(id, row)])]);
            && Next(env, s, DoInsert(tx, id, 0, 0)) == Some(s1)
            && Next(env, s1, Commit(tx)) == Some(s.(txs := s.txs - {tx}, rows := s.rows[id := row]))
  {
    var w := Insert(id, row);
    assert Seen(s, tx) == s.rows;
    assert [] + [w] == [w];
    ApplyAllOne(s.rows, [], w);
    var s1 := s.(txs := s.txs[tx := Tx(true, Finished(true), [w])]);
    assert s1.txs - {tx} == s.txs - {tx};
    assert Seen(s1, tx) == s.rows[id := row];
  }

  lemma SameRowElsewhere(env: Env, t: Table, d: Draft, v: Validated, id: string, row: Row)
    requires NewRow(env, map[], d, v, "", 0, 0) == Ok(Insert("", row)) && id !in t
    ensures NewRow(env, t, d, v, id, 0, 0) == Ok(Insert(id, row))
  {
  }

  lemma WaitingWithoutFirst(lo: nat, hi: nat, d: Draft, v: Validated)
    requires lo < hi
    ensures lo in Waiting(lo, hi, d, v) && Waiting(lo, hi, d, v)[lo] == Tx(true, Inserting(d, v), [])
    ensures Waiting(lo, hi, d, v) - {lo} == Waiting(lo + 1, hi, d, v)
  {
  }

  /** The first admitted create inserts its row and commits. */
  lemma FinishOne(env: Env, states: seq<State>, steps: seq<Step>, k: nat, row: Row, n: nat, lo: nat, hi: nat, d: Draft,
                  v: Validated, limit: int, passed: set<Option<int>>)
    returns (states': seq<State>, steps': seq<Step>)
    requires GoodRun(env, states, steps, k) && lo < hi <= k
    requires row.deletedAt.None? && NewRow(env, map[], d, v, "", 0, 0) == Ok(Insert("", row))
    requires Last(states) == Stage(row, n, Waiting(lo, hi, d, v), limit, passed)
    ensures GoodRun(env, states', steps', k) && states'[0] == states[0]
    ensures Last(states') == Stage(row, n + 1, Waiting(lo + 1, hi, d, v), limit, passed)
  {
    FilledCount(row, n);
    SameRowElsewhere(env, Filled(row, n), d, v, IdOf(n), row);
    WaitingWithoutFirst(lo, hi, d, v);
    var s := Last(states);
    FinishSteps(env, s, lo, IdOf(n), row, d, v);
    states', steps' := Extend(env, states, steps, k, DoInsert(lo, IdOf(n), 0, 0));
    states', steps' := Extend(env, states', steps', k, Commit(lo));
  }

  /** The stage a run of the construction stands at: every check so far was against the one limit. */
  ghost predicate AtStage(env: Env, states: seq<State>, steps: seq<Step>, k: nat, row: Row, n: nat, lo: nat, hi: nat,
                          d: Draft, v: Validated, limit: int)
  {
    && GoodRun(env, states, steps, k) && states[0].rows == map[]
    && Last(states).passed <= {Some(limit)}
    && Last(states) == Stage(row, n, Waiting(lo, hi, d, v), limit, Last(states).passed)
  }

  /** What the construction needs of the draft it creates over and over. */
  ghost predicate Creatable(env: Env, actor: Actor, draft: Draft, d: Draft, v: Validated, row: Row) {
    && row.deletedAt.None?
    && Admit(env, actor, draft) == Ok((d, v))
    && NewRow(env, map[], d, v, "", 0, 0) == Ok(Insert("", row))
  }

  /** One create after the other fills the table up to one below the limit. */
  lemma FillRows(env: Env, k: nat, row: Row, actor: Actor, draft: Draft, d: Draft, v: Validated, limit: int)
    returns (states: seq<State>, steps: seq<Step>)
    requires limit >= 1 && k >= 1 && Creatable(env, actor, draft, d, v, row)
    ensures AtStage(env, states, steps, k, row, limit - 1, 0, 0, d, v, limit)
  {
    var n := 0;
    states, steps := [Stage(row, 0, Waiting(0, 0, d, v), limit, {})], [];
    assert Last(states).txs == map[];
    while n < limit - 1
      invariant 0 <= n <= limit - 1
      invariant AtStage(env, states, steps, k, row, n, 0, 0, d, v, limit)
    {
      states, steps := OneRound(env, states, steps, k, row, n, actor, draft, d, v, limit);
      n := n + 1;
    }
  }

  lemma OneRound(env: Env, states: seq<State>, steps: seq<Step>, k: nat, row: Row, n: nat, actor: Actor, draft: Draft,
                 d: Draft, v: Validated, limit: int)
    returns (states': seq<State>, steps': seq<Step>)
    requires k >= 1 && n < limit && Creatable(env, actor, draft, d, v, row)
    requires AtStage(env, states, steps, k, row, n, 0, 0, d, v, limit)
    ensures AtStage(env, states', steps', k, row, n + 1, 0, 0, d, v, limit)
  {
    var passed := Last(states).passed;
    states', steps' := AdmitOne(env, states, steps, k, row, n, 0, actor, draft, d, v, limit, passed);
    states', steps' := FinishOne(env, states', steps', k, row, n, 0, 1, d, v, limit, passed + {Some(limit)});
    assert Waiting(1, 1, d, v) == Waiting(0, 0, d, v);
  }

  /** Then `k` creates pass their checks before any of them inserts. */
  lemma AdmitAll(env: Env, states: seq<State>, steps: seq<Step>, k: nat, row: Row, n: nat, actor: Actor, draft: Draft,
                 d: Draft, v: Validated, limit: int)
    returns (states': seq<State>, steps': seq<Step>)
    requires k >= 1 && n < limit && Creatable(env, actor, draft, d, v, row)
    requires AtStage(env, states, steps, k, row, n, 0, 0, d, v, limit)
    ensures AtStage(env, states', steps', k, row, n, 0, k, d, v, limit) && Last(states').passed == {Some(limit)}
  {
    states', steps' := states, steps;
    for hi := 0 to k
      invariant AtStage(env, states', steps', k, row, n, 0, hi, d, v, limit)
      invariant hi > 0 ==> Last(states').passed == {Some(limit)}
    {
      states', steps' := AdmitOne(env, states', steps', k, row, n, hi, actor, draft, d, v, limit, Last(states').passed);
    }
  }

  /** And all of them insert and commit. */
  lemma FinishAll(env: Env, states: seq<State>, steps: seq<Step>, k: nat, row: Row, n: nat, d: Draft, v: Validated,
                  limit: int)
    returns (states': seq<State>, steps': seq<Step>)
    requires row.deletedAt.None? && NewRow(env, map[], d, v, "", 0, 0) == Ok(Insert("", row))
    requires AtStage(env, states, steps, k, row, n, 0, k, d, v, limit)
    ensures AtStage(env, states', steps', k, row, n + k, k, k, d, v, limit)
            && Last(states').passed == Last(states).passed
  {
    states', steps' := states, steps;
    for lo := 0 to k
      invariant AtStage(env, states', steps', k, row, n + lo, lo, k, d, v, limit)
      invariant Last(states').passed == Last(states).passed
    {
      states', steps' := FinishOne(env, states', steps', k, row, n + lo, lo, k, d, v, limit, Last(states').passed);
    }
  }

  /** The three in turn. */
  lemma Attain(env: Env, actor: Actor, draft: Draft, d: Draft, v: Validated, row: Row, limit: int, k: nat)
    returns (states: seq<State>, steps: seq<Step>)
    requires limit >= 1 && k >= 1 && Creatable(env, actor, draft, d, v, row)
    ensures AtStage(env, states, steps, k, row, limit - 1 + k, k, k, d, v, limit)
    ensures Last(states).passed == {Some(limit)}
  {
    states, steps := FillRows(env, k, row, actor, draft, d, v, limit);
    states, steps := AdmitAll(env, states, steps, k, row, limit - 1, actor, draft, d, v, limit);
    states, steps := FinishAll(env, states, steps, k, row, limit - 1, d, v, limit);
  }

  lemma GoodRunIsBounded(env: Env, states: seq<State>, steps: seq<Step>, k: nat)
    requires GoodRun(env, states, steps, k)
    ensures forall i | 0 <= i < |states| :: |OpenCreates(states[i])| <= k && CallersDontCreate(states[i])
  {
    forall i | 0 <= i < |states| ensures |OpenCreates(states[i])| <= k && CallersDontCreate(states[i]) {
      assert states[i] in states;
      NumberedIsBounded(states[i], k);
    }
  }

  /** A run of the construction meets the premises of both theorems on the limit. */
  lemma GoodRunChecks(env: Env, states: seq<State>, steps: seq<Step>, k: nat, limit: int)
    requires GoodRun(env, states, steps, k) && Last(states).passed == {Some(limit)}
    ensures ChecksAmong(states, steps, |steps|, k)
  {
    GoodRunIsBounded(env, states, steps, k);
    OwnedLimitHolds(env, states, steps, |steps|, limit, k);
  }

  /** For every positive limit and every positive number of overlapping creates the bound is attained: from
      an empty table, with at most `k` creates open and every check against the one limit, a run reaches
      `limit + k - 1` active rows. The limit alone is guaranteed only for `k = 1`. */
  lemma LimitIsTight(env: Env, actor: Actor, draft: Draft, cols: Columns, limit: int, k: nat)
    returns (states: seq<State>, steps: seq<Step>)
    requires limit >= 1 && k >= 1
    requires Admit(env, actor, draft).Ok?
    requires NewRow(env, map[], Admit(env, actor, draft).value.0, Admit(env, actor, draft).value.1, "", 0, 0) ==
             Ok(Insert("", Row(cols, 0, 0, None)))
    ensures IsRun(env, states, steps) && states[0].rows == map[]
    ensures forall i | 0 <= i < |states| :: |OpenCreates(states[i])| <= k && CallersDontCreate(states[i])
    ensures ChecksAmong(states, steps, |steps|, k)
    ensures Last(states).passed == {Some(limit)}
    ensures |Active(Last(states).rows)| == limit + k - 1
  {
    var row := Row(cols, 0, 0, None);
    var (d, v) := Admit(env, actor, draft).value;
    states, steps := Attain(env, actor, draft, d, v, row, limit, k);
    FilledCount(row, limit - 1 + k);
    GoodRunIsBounded(env, states, steps, k);
    GoodRunChecks(env, states, steps, k, limit);
  }
}
