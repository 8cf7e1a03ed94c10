/** The saga's transactions statement by statement. Any number of them run at once: stock rows are
    read under a lock that is held to the end; a wallet is read without one and later updated,
    which takes its lock, if its version is still the one read; an outbox row takes its key when
    it is inserted. Writes are seen by others when they are committed. Whatever the interleaving,
    each commit does to the tables what the saga's transaction does in one step. */
module Transactions {
  import opened Domain
  import Saga

  datatype Job =
    | Deduct(info: OrderInfo)
    | Restore(info: OrderInfo, task: Saga.TaskId)
    | Pay(info: OrderInfo)
    | Charge(userId: nat, amount: nat)
    | Succeed(info: OrderInfo)
    | Mark(key: Key, status: EventStatus)
    | FailRow(info: OrderInfo, event: EventType)
    | FailOrder(id: nat)

  datatype Plan = NoPlan | Plan(rows: map<nat, int>)
  datatype Seen = Unread | Seen(totalPoint: int, version: nat)

  /** `held`: the stock rows locked, with the values read. `plan`: the values to write. `seen`: the
      wallet as read. `updated`: the wallet or the order has been updated. `inserted`: the outbox
      row has been inserted. */
  datatype Tx = Tx(job: Job, held: map<nat, int>, plan: Plan, seen: Seen, updated: bool, inserted: bool)

  /** The committed tables, the locks, the transactions that run and what has been committed. */
  datatype State = State(
    db: Db,
    rowOwner: map<nat, nat>,
    walletOwner: map<nat, nat>,
    keyOwner: map<Key, nat>,
    txs: map<nat, Tx>,
    committed: seq<Job>)

  datatype Step =
    | Begin(tx: nat, job: Job)
    | Lock(tx: nat, row: nat)
    | Compute(tx: nat)
    | Read(tx: nat)
    | Update(tx: nat)
    | Insert(tx: nat)
    | Commit(tx: nat)
    | Rollback(tx: nat)
    | Single(tx: nat, job: Job)

  // --------------------------------------------------------------------- the serial form

  /** A job in one step. */
  function Serial(db: Db, job: Job): Result<Db> {
    match job
    case Deduct(info) => DeductTx(db, info)
    case Restore(info, _) => RestoreTx(db, info)
    case Pay(info) => PaymentTx(db, info)
    case Charge(userId, amount) => ChargeTx(db, userId, amount)
    case Succeed(info) => SuccessTx(db, info)
    case Mark(key, status) => SetStatus(db, key, status)
    case FailRow(info, event) => CreateRow(db, info, event, Fail)
    case FailOrder(id) => SetOrderStatus(db, id, Failed)
  }

  function Replay(db: Db, jobs: seq<Job>): Result<Db> {
    if jobs == [] then Ok(db)
    else
      var before :- Replay(db, jobs[..|jobs| - 1]);
      Serial(before, jobs[|jobs| - 1])
  }

  // ------------------------------------------------------------------ what a job touches

  predicate OnStock(job: Job) {
    job.Deduct? || job.Restore?
  }

  /** Jobs that commit by themselves. */
  predicate OneStatement(job: Job) {
    job.Mark? || job.FailRow? || job.FailOrder?
  }

  predicate OnWallet(job: Job) {
    job.Pay? || job.Charge?
  }

  function User(job: Job): nat
    requires OnWallet(job)
  {
    if job.Pay? then job.info.userId else job.userId
  }

  /** What the wallet holds afterwards, if it may. */
  function NewBalance(job: Job, totalPoint: int): int
    requires OnWallet(job)
  {
    if job.Pay? then totalPoint - Amount(job.info.items) else totalPoint + job.amount
  }

  predicate MayPay(job: Job, totalPoint: int) {
    job.Pay? ==> totalPoint >= Amount(job.info.items)
  }

  function PointOf(job: Job): Point
    requires OnWallet(job)
  {
    if job.Pay? then Point(job.info.userId, -(Amount(job.info.items) as int), Use)
    else Point(job.userId, job.amount, PointKind.Charge)
  }

  predicate Emits(job: Job) {
    job.Deduct? || job.Pay? || job.Succeed?
  }

  function KeyOf(job: Job): Key
    requires Emits(job)
  {
    Key(job.info.id, if job.Deduct? then OrderDeductStock else if job.Pay? then OrderPayment else OrderSuccess)
  }

  function Rows(stock: map<nat, int>, items: seq<Item>): set<nat> {
    set p | p in stock && Ordered(items, p)
  }

  /** `deductStock` or the restore over the rows read, all of them or none. */
  function Planned(held: map<nat, int>, job: Job): Result<map<nat, int>>
    requires OnStock(job)
  {
    var items := job.info.items;
    if items == [] then Err(Conflict)
    else if job.Deduct? && exists p | p in held :: held[p] < LastQty(items, p) then Err(OutOfStock)
    else Ok(map p | p in held :: if job.Deduct? then held[p] - LastQty(items, p) else held[p] + FirstQty(items, p))
  }

  // ------------------------------------------------------------------------- the statements

  /** The effect of the job is ready, but for its outbox row. */
  predicate Ready(tx: Tx) {
    if OnStock(tx.job) then tx.plan.Plan? else tx.updated
  }

  predicate Enabled(s: State, step: Step) {
    match step
    case Begin(t, job) => t !in s.txs && !OneStatement(job)
    case Lock(t, p) =>
      && t in s.txs && OnStock(s.txs[t].job) && s.txs[t].plan.NoPlan?
      && p in Rows(s.db.stock, s.txs[t].job.info.items) && p !in s.rowOwner
    case Compute(t) =>
      && t in s.txs && OnStock(s.txs[t].job) && s.txs[t].plan.NoPlan?
      && s.txs[t].held.Keys == Rows(s.db.stock, s.txs[t].job.info.items)
      && Planned(s.txs[t].held, s.txs[t].job).Ok?
    case Read(t) =>
      t in s.txs && OnWallet(s.txs[t].job) && s.txs[t].seen.Unread? && User(s.txs[t].job) in s.db.wallets
    case Update(t) =>
      && t in s.txs && !s.txs[t].updated
      && if OnWallet(s.txs[t].job) then s.txs[t].seen.Seen? && CanSwap(s, s.txs[t])
         else s.txs[t].job.Succeed? && s.txs[t].job.info.id in s.db.orders
    case Insert(t) =>
      && t in s.txs && Emits(s.txs[t].job) && Ready(s.txs[t]) && !s.txs[t].inserted
      && KeyOf(s.txs[t].job) !in s.db.outbox && KeyOf(s.txs[t].job) !in s.keyOwner
    case Commit(t) => t in s.txs && Writable(s.db, s.txs[t]) && (Emits(s.txs[t].job) ==> s.txs[t].inserted)
    case Rollback(t) => t in s.txs
    case Single(_, job) =>
      match job
      case Mark(key, _) => key in s.db.outbox
      case FailRow(info, event) => Key(info.id, event) !in s.db.outbox && Key(info.id, event) !in s.keyOwner
      case FailOrder(id) => id in s.db.orders
      case _ => false
  }

  /** The wallet is free, at the version read, and holds enough. */
  predicate CanSwap(s: State, tx: Tx)
    requires OnWallet(tx.job) && tx.seen.Seen?
  {
    var u := User(tx.job);
    && u in s.db.wallets && u !in s.walletOwner
    && s.db.wallets[u].version == tx.seen.version && MayPay(tx.job, tx.seen.totalPoint)
  }

  /** All statements before the commit have been made. */
  predicate Writable(db: Db, tx: Tx) {
    && Ready(tx) && !OneStatement(tx.job)
    && (OnWallet(tx.job) ==> tx.seen.Seen?)
    && (tx.job.Succeed? ==> tx.job.info.id in db.orders)
  }

  /** The writes of a transaction, made visible. */
  function Written(db: Db, tx: Tx): Db
    requires Writable(db, tx)
  {
    var db1 :=
      if OnStock(tx.job) then db.(stock := db.stock + tx.plan.rows)
      else if OnWallet(tx.job) then
        db.(points := db.points + [PointOf(tx.job)],
            wallets := db.wallets[User(tx.job) :=
                         Wallet(NewBalance(tx.job, tx.seen.totalPoint), tx.seen.version + 1)])
      else db.(orders := db.orders[tx.job.info.id := db.orders[tx.job.info.id].(status := Paid)]);
    if Emits(tx.job) then db1.(outbox := db1.outbox[KeyOf(tx.job) := Row(tx.job.info, Init, Init)]) else db1
  }

  /** All locks of a transaction go at once. */
  function Ended(s: State, t: nat): State {
    s.(rowOwner := map p | p in s.rowOwner && s.rowOwner[p] != t :: s.rowOwner[p],
       walletOwner := map u | u in s.walletOwner && s.walletOwner[u] != t :: s.walletOwner[u],
       keyOwner := map k | k in s.keyOwner && s.keyOwner[k] != t :: s.keyOwner[k],
       txs := s.txs - {t})
  }

  function Apply(s: State, step: Step): State
    requires Enabled(s, step)
  {
    match step
    case Begin(t, job) => s.(txs := s.txs[t := Tx(job, map[], NoPlan, Unread, false, false)])
    case Lock(t, p) =>
      s.(rowOwner := s.rowOwner[p := t],
         txs := s.txs[t := s.txs[t].(held := s.txs[t].held[p := s.db.stock[p]])])
    case Compute(t) =>
      s.(txs := s.txs[t := s.txs[t].(plan := Plan(Planned(s.txs[t].held, s.txs[t].job).value))])
    case Read(t) =>
      var w := s.db.wallets[User(s.txs[t].job)];
      s.(txs := s.txs[t := s.txs[t].(seen := Seen(w.totalPoint, w.version))])
    case Update(t) =>
      s.(walletOwner := if OnWallet(s.txs[t].job) then s.walletOwner[User(s.txs[t].job) := t] else s.walletOwner,
         txs := s.txs[t := s.txs[t].(updated := true)])
    case Insert(t) =>
      s.(keyOwner := s.keyOwner[KeyOf(s.txs[t].job) := t], txs := s.txs[t := s.txs[t].(inserted := true)])
    case Commit(t) =>
      Ended(s.(db := Written(s.db, s.txs[t]), committed := s.committed + [s.txs[t].job]), t)
    case Rollback(t) => Ended(s, t)
    case Single(_, job) => s.(db := Serial(s.db, job).value, committed := s.committed + [job])
  }

  // --------------------------------------------------------------------------- the invariant

  /** What a transaction has locked is its own and as it was read. */
  predicate StockInv(s: State, t: nat)
    requires t in s.txs
  {
    var tx := s.txs[t];
    && (forall p | p in tx.held ::
          p in s.db.stock && s.db.stock[p] == tx.held[p] && p in s.rowOwner && s.rowOwner[p] == t)
    && (tx.plan.Plan? ==>
          && OnStock(tx.job) && tx.held.Keys == Rows(s.db.stock, tx.job.info.items)
          && Planned(tx.held, tx.job) == Ok(tx.plan.rows))
  }

  /** A wallet read has an old version or its present balance; an updated one is locked. */
  predicate WalletInv(s: State, t: nat)
    requires t in s.txs
  {
    var tx := s.txs[t];
    && (tx.seen.Seen? ==>
          && OnWallet(tx.job) && User(tx.job) in s.db.wallets
          && tx.seen.version <= s.db.wallets[User(tx.job)].version
          && (tx.seen.version == s.db.wallets[User(tx.job)].version ==>
                tx.seen.totalPoint == s.db.wallets[User(tx.job)].totalPoint))
    && (tx.updated && OnWallet(tx.job) ==>
          && tx.seen.Seen? && User(tx.job) in s.walletOwner && s.walletOwner[User(tx.job)] == t
          && tx.seen.version == s.db.wallets[User(tx.job)].version && MayPay(tx.job, tx.seen.totalPoint))
  }

  /** An order that is updated exists; an inserted key is free of a committed row. */
  predicate RowInv(s: State, t: nat)
    requires t in s.txs
  {
    var tx := s.txs[t];
    && !OneStatement(tx.job)
    && (tx.updated && tx.job.Succeed? ==> tx.job.info.id in s.db.orders)
    && (tx.inserted ==>
          && Emits(tx.job) && Ready(tx)
          && KeyOf(tx.job) !in s.db.outbox && KeyOf(tx.job) in s.keyOwner && s.keyOwner[KeyOf(tx.job)] == t)
  }

  predicate TxInv(s: State, t: nat) {
    t in s.txs ==> StockInv(s, t) && WalletInv(s, t) && RowInv(s, t)
  }

  ghost predicate Inv(s: State) {
    forall t: nat :: TxInv(s, t)
  }

  lemma OwnStep(s: State, step: Step)
    requires TxInv(s, step.tx) && Enabled(s, step)
    ensures TxInv(Apply(s, step), step.tx)
  {
    match step
    case Begin(t, job) =>
    case Lock(t, p) =>
    case Compute(t) =>
    case Read(t) =>
    case Update(t) =>
    case Insert(t) =>
    case Commit(t) =>
    case Rollback(t) =>
    case Single(t, job) => if t in s.txs { SingleKeeps(s, step, t); }
  }

  lemma SingleKeeps(s: State, step: Step, t: nat)
    requires step.Single? && t in s.txs && TxInv(s, t) && TxInv(s, step.tx) && Enabled(s, step)
    ensures TxInv(Apply(s, step), t)
  {
    var s' := Apply(s, step);
    assert s'.db.stock == s.db.stock && s'.db.wallets == s.db.wallets && s'.db.orders.Keys == s.db.orders.Keys;
  }

  lemma OtherStock(s: State, step: Step, t: nat)
    requires TxInv(s, step.tx) && t in s.txs && StockInv(s, t) && t != step.tx && Enabled(s, step)
    ensures t in Apply(s, step).txs && StockInv(Apply(s, step), t)
  {
    if step.Commit? { OthersRows(s, step.tx, t); }
  }

  /** A commit writes no row that another transaction has locked. */
  lemma OthersRows(s: State, u: nat, t: nat)
    requires TxInv(s, u) && t in s.txs && StockInv(s, t) && t != u && Enabled(s, Commit(u))
    ensures Apply(s, Commit(u)).db.stock.Keys == s.db.stock.Keys
    ensures forall p | p in s.txs[t].held :: Apply(s, Commit(u)).db.stock[p] == s.db.stock[p]
  {
  }

  lemma OtherWallet(s: State, step: Step, t: nat)
    requires TxInv(s, step.tx) && t in s.txs && WalletInv(s, t) && t != step.tx && Enabled(s, step)
    ensures t in Apply(s, step).txs && WalletInv(Apply(s, step), t)
  {
  }

  lemma OtherRow(s: State, step: Step, t: nat)
    requires TxInv(s, step.tx) && t in s.txs && RowInv(s, t) && t != step.tx && Enabled(s, step)
    ensures t in Apply(s, step).txs && RowInv(Apply(s, step), t)
  {
  }

  lemma StepInv(s: State, step: Step)
    requires Inv(s) && Enabled(s, step)
    ensures Inv(Apply(s, step))
  {
    assert TxInv(s, step.tx);
    OwnStep(s, step);
    forall t: nat ensures TxInv(Apply(s, step), t) {
      assert TxInv(s, t);
      if t != step.tx && t in s.txs {
        OtherStock(s, step, t);
        OtherWallet(s, step, t);
        OtherRow(s, step, t);
      }
    }
  }

  // ------------------------------------------------------------------- commits are atomic

  lemma PlanIsSerial(stock: map<nat, int>, held: map<nat, int>, job: Job)
    requires OnStock(job) && held.Keys == Rows(stock, job.info.items) && Planned(held, job).Ok?
    requires forall p | p in held :: stock[p] == held[p]
    ensures (if job.Deduct? then Deducted(stock, job.info.items) else Restored(stock, job.info.items))
            == Ok(stock + Planned(held, job).value)
  {
    var items, after := job.info.items, stock + Planned(held, job).value;
    forall p | p in stock
      ensures after[p] == if job.Deduct? then stock[p] - LastQty(items, p) else stock[p] + FirstQty(items, p)
      ensures job.Deduct? && Ordered(items, p) ==> stock[p] >= LastQty(items, p)
    {
      if p in Rows(stock, items) { assert p in held; } else { NotOrdered(items, p); }
    }
    assert after.Keys == stock.Keys;
    if job.Deduct? {
      assert !Short(stock, items);
      assert Deducted(stock, items).value == after;
    } else {
      assert Restored(stock, items).value == after;
    }
  }

  lemma StockCommit(s: State, t: nat)
    requires TxInv(s, t) && Enabled(s, Commit(t)) && OnStock(s.txs[t].job)
    ensures Serial(s.db, s.txs[t].job) == Ok(Written(s.db, s.txs[t]))
  {
    PlanIsSerial(s.db.stock, s.txs[t].held, s.txs[t].job);
  }

  lemma WalletCommit(s: State, t: nat)
    requires TxInv(s, t) && Enabled(s, Commit(t)) && OnWallet(s.txs[t].job)
    ensures Serial(s.db, s.txs[t].job) == Ok(Written(s.db, s.txs[t]))
  {
  }

  /** A commit is the saga's transaction on the tables as committed before. */
  lemma CommitIsAtomic(s: State, t: nat)
    requires Inv(s) && Enabled(s, Commit(t))
    ensures Serial(s.db, s.txs[t].job) == Ok(Apply(s, Commit(t)).db)
  {
    assert TxInv(s, t);
    if OnStock(s.txs[t].job) { StockCommit(s, t); }
    else if OnWallet(s.txs[t].job) { WalletCommit(s, t); }
  }

  /** The refusals are the saga's too: what the locked rows show of the stock, and a key that is
      taken when the effect is ready. */
  lemma RefusalIsAtomic(s: State, t: nat)
    requires Inv(s) && t in s.txs
    ensures var tx := s.txs[t];
            && (tx.job.Deduct? && tx.held.Keys == Rows(s.db.stock, tx.job.info.items) ==>
                  (Planned(tx.held, tx.job) == Err(OutOfStock) <==>
                   Deducted(s.db.stock, tx.job.info.items) == Err(OutOfStock)))
            && (Emits(tx.job) && KeyOf(tx.job) in s.db.outbox ==> Serial(s.db, tx.job).Err?)
  {
    assert TxInv(s, t);
    var tx := s.txs[t];
    if tx.job.Deduct? && tx.held.Keys == Rows(s.db.stock, tx.job.info.items) {
      if Planned(tx.held, tx.job) == Err(OutOfStock) {
        var p :| p in tx.held && tx.held[p] < LastQty(tx.job.info.items, p);
        assert p in Rows(s.db.stock, tx.job.info.items);
      }
      if Deducted(s.db.stock, tx.job.info.items) == Err(OutOfStock) {
        var p :| p in s.db.stock && Ordered(tx.job.info.items, p) && s.db.stock[p] < LastQty(tx.job.info.items, p);
        assert p in Rows(s.db.stock, tx.job.info.items);
      }
    }
  }

  /** A commit leaves the tables that the saga's step leaves. */
  lemma CommitIsASagaStep(s: State, t: nat, saga: Saga.State)
    requires Inv(s) && Enabled(s, Commit(t)) && saga.db == s.db
    ensures var after := Apply(s, Commit(t)).db;
            match s.txs[t].job
            case Deduct(info) => Saga.DeductStock(saga, info, false).db == after
            case Restore(info, task) =>
              Restoring(saga, info, task) ==> Saga.CompensateOnce(saga, task, true).db == after
            case Pay(info) => Saga.Pay(saga, info, false).db == after
            case Succeed(info) => Saga.Succeed(saga, info, false).db == after
            case Charge(userId, amount) => Saga.Apply(saga, Saga.ChargePoint(userId, amount)).db == after
            case _ => false
  {
    assert TxInv(s, t);
    CommitIsAtomic(s, t);
  }

  /** A poller is compensating the payment row of the order. */
  predicate Restoring(saga: Saga.State, info: OrderInfo, task: Saga.TaskId) {
    && Saga.InStage(saga, task, Saga.Compensating) && task.key.event.OrderPayment?
    && task.key in saga.db.outbox && saga.db.outbox[task.key].payload == info
  }

  // --------------------------------------------------------------------------------- runs

  predicate Initial(s: State) {
    s.rowOwner == map[] && s.walletOwner == map[] && s.keyOwner == map[] && s.txs == map[] && s.committed == []
  }

  predicate Legal(s: State, steps: seq<Step>)
    decreases |steps|
  {
    steps == [] || (Enabled(s, steps[0]) && Legal(Apply(s, steps[0]), steps[1..]))
  }

  function Exec(s: State, steps: seq<Step>): State
    requires Legal(s, steps)
    decreases |steps|
  {
    if steps == [] then s else Exec(Apply(s, steps[0]), steps[1..])
  }

  lemma StepIsSerial(db: Db, s: State, step: Step)
    requires Inv(s) && Enabled(s, step) && Replay(db, s.committed) == Ok(s.db)
    ensures Replay(db, Apply(s, step).committed) == Ok(Apply(s, step).db)
  {
    if step.Commit? {
      CommitIsAtomic(s, step.tx);
      assert (s.committed + [s.txs[step.tx].job])[..|s.committed|] == s.committed;
    } else if step.Single? {
      assert (s.committed + [step.job])[..|s.committed|] == s.committed;
    }
  }

  lemma {:induction false} RunIsSerial(db: Db, s: State, steps: seq<Step>)
    requires Inv(s) && Replay(db, s.committed) == Ok(s.db) && Legal(s, steps)
    ensures Replay(db, Exec(s, steps).committed) == Ok(Exec(s, steps).db)
    decreases |steps|
  {
    if steps != [] {
      StepIsSerial(db, s, steps[0]);
      StepInv(s, steps[0]);
      RunIsSerial(db, Apply(s, steps[0]), steps[1..]);
    }
  }

  /** Whatever the interleaving of statements, rollbacks included, the tables at any moment are
      those the committed transactions give one at a time, in commit order, as the saga runs them. */
  lemma InterleavingIsSerial(s: State, steps: seq<Step>)
    requires Initial(s) && Legal(s, steps)
    ensures Replay(s.db, Exec(s, steps).committed) == Ok(Exec(s, steps).db)
  {
    RunIsSerial(s.db, s, steps);
  }
}
