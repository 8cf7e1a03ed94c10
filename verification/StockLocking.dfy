/** Stock transactions under row locks. Each transaction takes its locks row by row, reads a
    row as it locks it, works out absolute values from what it read and writes them one row at
    a time; any number of transactions run at once and any of them may be rolled back. What is
    committed is nevertheless what the deductions and restores, run one at a time as relative
    changes in commit order, would give. */
module StockLocking {
  import opened Domain

  datatype Work = Deduct(items: seq<Item>) | Restore(items: seq<Item>)

  /** `held`: the locked rows with the values read. `plan`: the absolute values to write.
      `written`: the rows already overwritten. */
  datatype Phase = Locking | Writing | Doomed
  datatype Tx = Tx(work: Work, phase: Phase, held: map<nat, int>, plan: map<nat, int>, written: set<nat>)

  /** The rows as they stand in the table, uncommitted writes included; who has locked what;
      and the committed work in commit order. */
  datatype State = State(table: map<nat, int>, owner: map<nat, nat>, txs: map<nat, Tx>, committed: seq<Work>)

  datatype Step =
    | Begin(tx: nat, work: Work)
    | Lock(tx: nat, row: nat)
    | Compute(tx: nat)
    | Write(tx: nat, row: nat)
    | Commit(tx: nat)
    | Rollback(tx: nat)

  // --------------------------------------------------------------------- the serial form

  function Serial(stock: map<nat, int>, work: Work): Result<map<nat, int>> {
    match work
    case Deduct(items) => Deducted(stock, items)
    case Restore(items) => Restored(stock, items)
  }

  function Replay(stock: map<nat, int>, works: seq<Work>): Result<map<nat, int>> {
    if works == [] then Ok(stock)
    else
      var before :- Replay(stock, works[..|works| - 1]);
      Serial(before, works[|works| - 1])
  }

  // ---------------------------------------------------------------- the interleaved form

  /** The rows a transaction locks: those of its products that have one. */
  function Rows(table: map<nat, int>, work: Work): set<nat> {
    set p | p in table && Ordered(work.items, p)
  }

  /** `deductStocks` or `addStocks` over the rows read, all of them or none. */
  function Planned(held: map<nat, int>, work: Work): Result<map<nat, int>> {
    if work.items == [] then Err(Conflict)
    else if work.Deduct? && exists p | p in held :: held[p] < LastQty(work.items, p) then Err(OutOfStock)
    else
      Ok(map p | p in held ::
           if work.Deduct? then held[p] - LastQty(work.items, p) else held[p] + FirstQty(work.items, p))
  }

  predicate Enabled(s: State, step: Step) {
    match step
    case Begin(t, work) => t !in s.txs
    case Lock(t, p) =>
      t in s.txs && s.txs[t].phase.Locking? && p in Rows(s.table, s.txs[t].work) && p !in s.owner
    case Compute(t) =>
      t in s.txs && s.txs[t].phase.Locking? && s.txs[t].held.Keys == Rows(s.table, s.txs[t].work)
    case Write(t, p) => t in s.txs && s.txs[t].phase.Writing? && p in s.txs[t].plan
    case Commit(t) => t in s.txs && s.txs[t].phase.Writing? && s.txs[t].written == s.txs[t].plan.Keys
    case Rollback(t) => t in s.txs
  }

  function Unlock(s: State, t: nat): State {
    s.(owner := map p | p in s.owner && s.owner[p] != t :: s.owner[p], txs := s.txs - {t})
  }

  function Apply(s: State, step: Step): State
    requires Enabled(s, step)
  {
    match step
    case Begin(t, work) => s.(txs := s.txs[t := Tx(work, Locking, map[], map[], {})])
    case Lock(t, p) =>
      s.(owner := s.owner[p := t], txs := s.txs[t := s.txs[t].(held := s.txs[t].held[p := s.table[p]])])
    case Compute(t) =>
      var plan := Planned(s.txs[t].held, s.txs[t].work);
      s.(txs := s.txs[t := if plan.Ok? then s.txs[t].(phase := Writing, plan := plan.value)
                           else s.txs[t].(phase := Doomed)])
    case Write(t, p) =>
      s.(table := s.table[p := s.txs[t].plan[p]],
         txs := s.txs[t := s.txs[t].(written := s.txs[t].written + {p})])
    case Commit(t) => Unlock(s.(committed := s.committed + [s.txs[t].work]), t)
    case Rollback(t) =>
      Unlock(s.(table := map p | p in s.table :: if p in s.txs[t].held then s.txs[t].held[p] else s.table[p]), t)
  }

  // ----------------------------------------------------------------------- the invariant

  /** The table without the writes of transactions still running: what a rollback of all of
      them would leave, and what a plain read sees. */
  function Committed(s: State): map<nat, int> {
    map p | p in s.table ::
      if p in s.owner && s.owner[p] in s.txs && p in s.txs[s.owner[p]].held
      then s.txs[s.owner[p]].held[p] else s.table[p]
  }

  /** Locks and read rows go together, and an unwritten row is still as it was read. */
  predicate TxInv(s: State, t: nat) {
    t in s.txs ==>
      var tx := s.txs[t];
      && (forall p | p in tx.held :: p in s.table && p in s.owner && s.owner[p] == t && Ordered(tx.work.items, p))
      && (forall p | p in tx.held && p !in tx.written :: s.table[p] == tx.held[p])
      && (forall p | p in tx.written :: p in tx.plan && p in s.table && s.table[p] == tx.plan[p])
      && (tx.phase.Locking? || tx.phase.Doomed? ==> tx.written == {})
      && (tx.phase.Writing? ==> tx.held.Keys == Rows(s.table, tx.work) && Planned(tx.held, tx.work) == Ok(tx.plan))
  }

  predicate LockInv(s: State) {
    forall p | p in s.owner :: s.owner[p] in s.txs && p in s.txs[s.owner[p]].held
  }

  ghost predicate Inv(s: State) {
    LockInv(s) && forall t: nat :: TxInv(s, t)
  }

  /** The transaction that takes the step. */
  lemma OwnStep(s: State, step: Step)
    requires LockInv(s) && TxInv(s, step.tx) && Enabled(s, step)
    ensures TxInv(Apply(s, step), step.tx)
  {}

  /** The others: none of their rows is locked, written or released by it. */
  lemma OtherStep(s: State, step: Step, t: nat)
    requires LockInv(s) && TxInv(s, step.tx) && TxInv(s, t) && t != step.tx && Enabled(s, step)
    ensures TxInv(Apply(s, step), t)
  {
    match step
    case Lock(u, p) => OtherLock(s, u, p, t);
    case Write(u, p) => OtherWrite(s, u, p, t);
    case Commit(u) => OtherCommit(s, u, t);
    case Rollback(u) => OtherRollback(s, u, t);
    case _ =>
  }

  lemma OtherLock(s: State, u: nat, p: nat, t: nat)
    requires TxInv(s, t) && t != u && Enabled(s, Lock(u, p))
    ensures TxInv(Apply(s, Lock(u, p)), t)
  {}

  lemma OtherWrite(s: State, u: nat, p: nat, t: nat)
    requires LockInv(s) && TxInv(s, u) && TxInv(s, t) && t != u && Enabled(s, Write(u, p))
    ensures TxInv(Apply(s, Write(u, p)), t)
  {
    assert p in s.txs[u].held && s.owner[p] == u;
  }

  lemma OtherCommit(s: State, u: nat, t: nat)
    requires TxInv(s, t) && t != u && Enabled(s, Commit(u))
    ensures TxInv(Apply(s, Commit(u)), t)
  {}

  lemma OtherRollback(s: State, u: nat, t: nat)
    requires TxInv(s, u) && TxInv(s, t) && t != u && Enabled(s, Rollback(u))
    ensures TxInv(Apply(s, Rollback(u)), t)
  {}

  lemma LocksStep(s: State, step: Step)
    requires LockInv(s) && TxInv(s, step.tx) && Enabled(s, step)
    ensures LockInv(Apply(s, step))
  {}

  lemma StepInv(s: State, step: Step)
    requires Inv(s) && Enabled(s, step)
    ensures Inv(Apply(s, step))
  {
    assert TxInv(s, step.tx);
    OwnStep(s, step);
    LocksStep(s, step);
    forall t: nat ensures TxInv(Apply(s, step), t) {
      assert TxInv(s, t);
      if t != step.tx { OtherStep(s, step, t); }
    }
  }

  /** A row as committed: the value read by the transaction that has locked it, if any. */
  lemma KeptRow(s: State, step: Step, p: nat)
    requires LockInv(s) && TxInv(s, step.tx) && Enabled(s, step) && !step.Commit? && p in s.table
    requires p in s.owner ==> TxInv(s, s.owner[p])
    ensures p in Apply(s, step).table && Committed(Apply(s, step))[p] == Committed(s)[p]
  {
    if p in s.owner { assert s.owner[p] in s.txs && p in s.txs[s.owner[p]].held; }
    match step
    case Begin(t, work) =>
    case Lock(t, q) => LockedRow(s, t, q, p);
    case Compute(t) =>
    case Write(t, q) => WrittenRow(s, t, q, p);
    case Commit(t) =>
    case Rollback(t) => RolledBackRow(s, t, p);
  }

  lemma LockedRow(s: State, t: nat, q: nat, p: nat)
    requires LockInv(s) && Enabled(s, Lock(t, q)) && p in s.table
    ensures Committed(Apply(s, Lock(t, q)))[p] == Committed(s)[p]
  {}

  lemma WrittenRow(s: State, t: nat, q: nat, p: nat)
    requires LockInv(s) && TxInv(s, t) && Enabled(s, Write(t, q)) && p in s.table
    ensures Committed(Apply(s, Write(t, q)))[p] == Committed(s)[p]
  {
    assert q in s.txs[t].held;
  }

  lemma RolledBackRow(s: State, t: nat, p: nat)
    requires LockInv(s) && t in s.txs && TxInv(s, t) && p in s.table
    ensures Committed(Apply(s, Rollback(t)))[p] == Committed(s)[p]
  {
    if p in s.owner && s.owner[p] == t {
      assert p in s.txs[t].held;
    } else {
      assert p !in s.txs[t].held;
    }
  }

  /** Only a commit changes what is committed. */
  lemma OthersCommitNothing(s: State, step: Step)
    requires Inv(s) && Enabled(s, step) && !step.Commit?
    ensures Committed(Apply(s, step)) == Committed(s) && Apply(s, step).committed == s.committed
  {
    assert TxInv(s, step.tx);
    var s' := Apply(s, step);
    assert s'.table.Keys == s.table.Keys;
    forall p | p in s.table ensures Committed(s')[p] == Committed(s)[p] {
      if p in s.owner { assert TxInv(s, s.owner[p]); }
      KeptRow(s, step, p);
    }
    assert Committed(s').Keys == Committed(s).Keys;
  }

  /** A commit of absolute values is the relative change of its work. */
  lemma CommitIsSerial(s: State, t: nat)
    requires Inv(s) && Enabled(s, Commit(t))
    ensures Serial(Committed(s), s.txs[t].work) == Ok(Committed(Apply(s, Commit(t))))
  {
    assert TxInv(s, t);
    var tx := s.txs[t];
    var (before, after) := (Committed(s), Committed(Apply(s, Commit(t))));
    assert before.Keys == after.Keys == s.table.Keys;
    forall p | p in s.table
      ensures p in tx.held ==> before[p] == tx.held[p] && after[p] == tx.plan[p]
      ensures p !in tx.held ==> after[p] == before[p] && !Ordered(tx.work.items, p)
    {
      CommittedRow(s, t, p);
    }
    PlanIsSerial(before, after, tx);
  }

  lemma CommittedRow(s: State, t: nat, p: nat)
    requires LockInv(s) && TxInv(s, t) && Enabled(s, Commit(t)) && p in s.table
    ensures var (before, after) := (Committed(s), Committed(Apply(s, Commit(t))));
            var tx := s.txs[t];
            && (p in tx.held ==> p in tx.plan && before[p] == tx.held[p] && after[p] == tx.plan[p])
            && (p !in tx.held ==> after[p] == before[p] && !Ordered(tx.work.items, p))
  {
    var s' := Apply(s, Commit(t));
    assert p in s.txs[t].held <==> p in Rows(s.table, s.txs[t].work);
    assert p in s'.owner <==> p in s.owner && s.owner[p] != t;
    if p in s.owner && s.owner[p] != t { assert p !in s.txs[t].held; }
  }

  lemma PlanIsSerial(before: map<nat, int>, after: map<nat, int>, tx: Tx)
    requires before.Keys == after.Keys && tx.held.Keys == Rows(before, tx.work)
    requires Planned(tx.held, tx.work) == Ok(tx.plan)
    requires forall p | p in tx.held :: before[p] == tx.held[p] && after[p] == tx.plan[p]
    requires forall p | p in before && p !in tx.held :: after[p] == before[p]
    ensures Serial(before, tx.work) == Ok(after)
  {
    var items := tx.work.items;
    forall p | p in before
      ensures after[p] == if tx.work.Deduct? then before[p] - LastQty(items, p) else before[p] + FirstQty(items, p)
      ensures tx.work.Deduct? && Ordered(items, p) ==> before[p] >= LastQty(items, p)
    {
      if p in Rows(before, tx.work) {
        assert after[p] == tx.plan[p];
      } else {
        NotOrdered(items, p);
      }
    }
    assert tx.work.Deduct? ==> !Short(before, items);
    assert Serial(before, tx.work).Ok? && Serial(before, tx.work).value == after;
  }

  // -------------------------------------------------------------------------------- runs

  predicate Legal(s: State, steps: seq<Step>)
    decreases |steps|
  {
    steps == [] || (Enabled(s, steps[0]) && Legal(Apply(s, steps[0]), steps[1..]))
  }

  function Exec(s: State, steps: seq<Step>): State
    requires Legal(s, steps)
    decreases |steps|
  {
    if steps == [] then s else Exec(Apply(s, steps[0]), steps[1..])
  }

  predicate Initial(s: State) {
    s.owner == map[] && s.txs == map[] && s.committed == []
  }

  lemma {:induction false} RunIsSerial(stock: map<nat, int>, s: State, steps: seq<Step>)
    requires Inv(s) && Legal(s, steps) && Replay(stock, s.committed) == Ok(Committed(s))
    ensures Inv(Exec(s, steps))
    ensures Replay(stock, Exec(s, steps).committed) == Ok(Committed(Exec(s, steps)))
    decreases |steps|
  {
    if steps != [] {
      var step := steps[0];
      StepInv(s, step);
      if step.Commit? {
        CommitIsSerial(s, step.tx);
        assert (s.committed + [s.txs[step.tx].work])[..|s.committed|] == s.committed;
      } else {
        OthersCommitNothing(s, step);
      }
      RunIsSerial(stock, Apply(s, step), steps[1..]);
    }
  }

  /** Whatever the interleaving, the committed table is that of running the committed
      deductions and restores serially in commit order, and every one of them succeeds there:
      what was in stock when the rows were locked still is when it is its turn. */
  lemma InterleavingIsSerial(s: State, steps: seq<Step>)
    requires Initial(s) && Legal(s, steps)
    ensures Replay(s.table, Exec(s, steps).committed) == Ok(Committed(Exec(s, steps)))
  {
    assert Committed(s) == s.table;
    RunIsSerial(s.table, s, steps);
  }

  /** And when no transaction is running, that is the table itself. */
  lemma QuietTableIsSerial(s: State, steps: seq<Step>)
    requires Initial(s) && Legal(s, steps) && Exec(s, steps).txs == map[]
    ensures Replay(s.table, Exec(s, steps).committed) == Ok(Exec(s, steps).table)
  {
    assert Committed(s) == s.table;
    RunIsSerial(s.table, s, steps);
    assert Committed(Exec(s, steps)) == Exec(s, steps).table;
  }

  // ------------------------------------------------------- neither oversold nor undersold

  /** `n` orders of `q` units of one product, tried one after the other. */
  function Tries(stock: map<nat, int>, p: nat, q: nat, price: nat, n: nat): (map<nat, int>, nat) {
    if n == 0 then (stock, 0)
    else
      var (before, sold) := Tries(stock, p, q, price, n - 1);
      match Deducted(before, [Item(p, q, price)])
      case Ok(after) => (after, sold + 1)
      case Err(_) => (before, sold)
  }

  lemma OneItem(stock: map<nat, int>, p: nat, q: nat, price: nat)
    requires p in stock
    ensures Deducted(stock, [Item(p, q, price)])
            == if stock[p] < q then Err(OutOfStock) else Ok(stock[p := stock[p] - q])
  {
    var items := [Item(p, q, price)];
    assert items[..0] == [];
    assert items[0].productId == p && Ordered(items, p) && LastQty(items, p) == q;
    forall r | r in stock && r != p ensures LastQty(items, r) == 0 {}
    if stock[p] >= q {
      assert !Short(stock, items);
      assert Deducted(stock, items).value == stock[p := stock[p] - q];
    } else {
      assert Short(stock, items);
    }
  }

  lemma OneMore(stock: map<nat, int>, p: nat, q: nat, price: nat, left: int)
    requires p in stock
    ensures Deducted(stock[p := left], [Item(p, q, price)])
            == if left < q then Err(OutOfStock) else Ok(stock[p := left - q])
  {
    OneItem(stock[p := left], p, q, price);
    assert stock[p := left][p := left - q] == stock[p := left - q];
  }

  function Sold(stock: int, q: nat, n: nat): nat
    requires stock >= 0 && q > 0
  {
    if n <= stock / q then n else stock / q
  }

  /** What is left of the stock. */
  function Left(stock: int, q: nat, n: nat): int
    requires stock >= 0 && q > 0
  {
    stock - q * Sold(stock, q, n)
  }

  /** One more try sells if what is left covers it. */
  lemma SoldNext(stock: int, q: nat, n: nat)
    requires stock >= 0 && q > 0
    ensures Sold(stock, q, n + 1) == (if Left(stock, q, n) < q then Sold(stock, q, n) else Sold(stock, q, n) + 1)
    ensures Left(stock, q, n + 1) == (if Left(stock, q, n) < q then Left(stock, q, n) else Left(stock, q, n) - q)
  {
    Quotient(stock, q, Sold(stock, q, n));
  }

  lemma NothingTried(stock: int, q: nat)
    requires stock >= 0 && q > 0
    ensures Sold(stock, q, 0) == 0 && Left(stock, q, 0) == stock
  {
  }

  lemma TriesNext(stock: map<nat, int>, p: nat, q: nat, price: nat, n: nat, left: int, k: nat)
    requires p in stock && Tries(stock, p, q, price, n) == (stock[p := left], k)
    ensures Tries(stock, p, q, price, n + 1)
            == if left < q then (stock[p := left], k) else (stock[p := left - q], k + 1)
  {
    OneMore(stock, p, q, price, left);
  }

  lemma SoldOnce(stock: map<nat, int>, p: nat, q: nat, price: nat, n: nat)
    requires p in stock && stock[p] >= 0 && q > 0
    requires Tries(stock, p, q, price, n) == (stock[p := Left(stock[p], q, n)], Sold(stock[p], q, n))
    ensures Tries(stock, p, q, price, n + 1) == (stock[p := Left(stock[p], q, n + 1)], Sold(stock[p], q, n + 1))
  {
    var left, sold := Left(stock[p], q, n), Sold(stock[p], q, n);
    TriesNext(stock, p, q, price, n, left, sold);
    SoldNext(stock[p], q, n);
  }

  /** They succeed exactly min(n, stock / q) times and leave the rest. */
  lemma {:induction false} SoldExactly(stock: map<nat, int>, p: nat, q: nat, price: nat, n: nat)
    requires p in stock && stock[p] >= 0 && q > 0
    ensures Tries(stock, p, q, price, n) == (stock[p := Left(stock[p], q, n)], Sold(stock[p], q, n))
  {
    if n == 0 {
      NothingTried(stock[p], q);
      assert stock[p := stock[p]] == stock;
    } else {
      SoldExactly(stock, p, q, price, n - 1);
      SoldOnce(stock, p, q, price, n - 1);
    }
  }

  lemma Quotient(a: int, q: nat, k: nat)
    requires a >= 0 && q > 0
    ensures a - q * k < q <==> k >= a / q
    ensures q * (k + 1) == q * k + q
  {
    var d := a / q;
    assert q * d <= a < q * d + q;
    if k >= d { assert q * k >= q * d; } else { assert q * (k + 1) <= q * d; }
  }
}
