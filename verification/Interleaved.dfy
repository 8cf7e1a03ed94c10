/** The whole system with its transactions running statement by statement: consumers, charges and
    restores as interleaved transactions, everything else as the saga has it. Every run of it is a
    run of the saga with the same tables at its end. */
module Interleaved {
  import opened Domain
  import opened Saga
  import SagaInvariant
  import SagaTheorems
  import Accounting
  import Drain
  import T = Transactions

  datatype System = System(tables: T.State, saga: State)

  /** A statement of a transaction; the end of a deduction whose locked rows hold too little; or a
      step of the saga that is no transaction, or one that has failed. */
  datatype Move = Statement(step: T.Step) | Refuse(tx: nat) | Other(other: Step)

  // ------------------------------------------------------------------------------ the moves

  /** What has to be there for a transaction to begin, and what of it stays. */
  predicate Called(s: State, job: T.Job) {
    match job
    case Deduct(info) => Message(OrderCreated, info) in s.topics
    case Pay(info) => Message(OrderDeductStock, info) in s.topics
    case Succeed(info) => Message(OrderPayment, info) in s.topics
    case Charge(_, _) => true
    case Restore(info, t) =>
      t.key.event.OrderPayment? && t.key in s.db.outbox && s.db.outbox[t.key].payload == info
    case _ => false
  }

  /** A restore runs, and commits, only while its poller has the row. */
  predicate InHand(s: State, job: T.Job) {
    job.Restore? ==> InStage(s, job.task, Compensating)
  }

  function StepOf(job: T.Job): Step
    requires !T.OneStatement(job)
  {
    match job
    case Deduct(info) => ConsumeCreated(info, false)
    case Pay(info) => ConsumeDeductStock(info, false)
    case Succeed(info) => ConsumePayment(info, false)
    case Charge(userId, amount) => ChargePoint(userId, amount)
    case Restore(_, t) => Compensate(t, true)
  }

  /** The steps that are not run as transactions here. */
  predicate Plain(step: Step) {
    match step
    case ChargePoint(_, _) => false
    case ConsumeCreated(_, fault) => fault
    case ConsumeDeductStock(_, fault) => fault
    case ConsumePayment(_, fault) => fault
    case Compensate(t, committed) => t.key.event.OrderPayment? ==> !committed
    case _ => true
  }

  /** An insertion waits for a key that a transaction has taken. */
  predicate KeysFree(tables: T.State, db: Db) {
    forall k | k in db.outbox && k !in tables.db.outbox :: k !in tables.keyOwner
  }

  predicate Possible(c: System, move: Move) {
    match move
    case Statement(step) =>
      && T.Enabled(c.tables, step) && !step.Single?
      && (step.Begin? ==> Called(c.saga, step.job) && InHand(c.saga, step.job))
      && (step.Commit? ==> InHand(c.saga, c.tables.txs[step.tx].job))
    case Refuse(t) =>
      && t in c.tables.txs && c.tables.txs[t].job.Deduct?
      && var tx := c.tables.txs[t];
         && tx.held.Keys == T.Rows(c.tables.db.stock, tx.job.info.items)
         && T.Planned(tx.held, tx.job) == Err(OutOfStock)
    case Other(step) => Enabled(c.saga, step) && Plain(step) && KeysFree(c.tables, Apply(c.saga, step).db)
  }

  /** The saga's steps behind a move: none for a statement that is no commit. */
  function StepsOf(c: System, move: Move): seq<Step>
    requires Possible(c, move)
  {
    match move
    case Statement(step) =>
      if step.Commit? && !T.OneStatement(c.tables.txs[step.tx].job) then [StepOf(c.tables.txs[step.tx].job)] else []
    case Refuse(t) => [ConsumeCreated(c.tables.txs[t].job.info, false)]
    case Other(step) => [step]
  }

  /** The saga follows if it can, which `MoveMatches` shows it always does. */
  function Follow(s: State, steps: seq<Step>): State {
    if Legal(s, steps) then Exec(s, steps) else s
  }

  function After(c: System, move: Move): System
    requires Possible(c, move)
  {
    var saga := Follow(c.saga, StepsOf(c, move));
    match move
    case Statement(step) => System(T.Apply(c.tables, step), saga)
    case Refuse(t) => System(T.Apply(c.tables, T.Rollback(t)), saga)
    case Other(_) => System(c.tables.(db := saga.db), saga)
  }

  // --------------------------------------------------------------------------- the invariant

  /** The committed tables are the saga's, and every transaction that runs was called for. */
  ghost predicate Matched(c: System) {
    && T.Inv(c.tables) && c.tables.db == c.saga.db
    && SagaInvariant.Inv(c.saga) && SagaInvariant.BookInv(c.saga)
    && forall t | t in c.tables.txs :: Called(c.saga, c.tables.txs[t].job)
  }

  lemma CalledStays(s: State, step: Step, job: T.Job)
    requires SagaInvariant.Inv(s) && Enabled(s, step) && Called(s, job)
    ensures Called(Apply(s, step), job)
  {
    Drain.TopicsGrow(s, step);
    if job.Restore? { SagaTheorems.RowsMove(s, step, job.task.key); }
  }

  lemma NowEnabled(s: State, job: T.Job)
    requires Called(s, job) && InHand(s, job)
    ensures Enabled(s, StepOf(job))
  {
  }

  /** What a plain step may do to the tables. */
  predicate Harmless(db: Db, after: Db) {
    && after.stock == db.stock
    && (forall u | u in db.wallets :: u in after.wallets && after.wallets[u] == db.wallets[u])
    && (forall id | id in db.orders :: id in after.orders)
    && (forall k | k in db.outbox :: k in after.outbox)
  }

  lemma CompensationHarmless(s: State, t: TaskId, committed: bool)
    requires InStage(s, t, Compensating) && t.key in s.db.outbox && (t.key.event.OrderPayment? ==> !committed)
    ensures Harmless(s.db, CompensateOnce(s, t, committed).db)
  {
  }

  lemma SetHarmless(db: Db, key: Key, status: EventStatus)
    ensures SetStatus(db, key, status).Ok? ==> Harmless(db, SetStatus(db, key, status).value)
  {
  }

  lemma CreateHarmless(db: Db, info: OrderInfo, event: EventType, status: EventStatus)
    ensures CreateRow(db, info, event, status).Ok? ==> Harmless(db, CreateRow(db, info, event, status).value)
  {
  }

  lemma MarkHarmless(s: State, t: TaskId, status: EventStatus)
    requires t in s.tasks
    ensures Harmless(s.db, Done(WithDb(s, SetStatus(s.db, t.key, status)), t).db)
    ensures RetryCompensation(s, t).db == s.db
  {
    SetHarmless(s.db, t.key, status);
  }

  lemma RecoveryHarmless(s: State, r: Recovery, ok: bool)
    ensures Harmless(s.db, RecoverOnce(s, r, ok).db)
  {
    match r
    case FailDeduct(info) => CreateHarmless(s.db, info, OrderDeductStock, Fail);
    case FailPayment(info) => CreateHarmless(s.db, info, OrderPayment, Fail);
    case ReDrive(info) => SetHarmless(s.db, Key(info.id, OrderCreated), Init);
  }

  lemma PublishHarmless(s: State, t: TaskId, sent: bool, acked: bool)
    requires InStage(s, t, Publishing) && t.key in s.db.outbox
    ensures PublishOnce(s, t, sent, acked).db == s.db
  {
  }

  lemma PlaceHarmless(s: State, info: OrderInfo)
    ensures Harmless(s.db, Place(s, info).db)
  {
  }

  lemma PlainIsHarmless(s: State, step: Step)
    requires Enabled(s, step) && Plain(step)
    ensures Harmless(s.db, Apply(s, step).db)
  {
    match step
    case PlaceOrder(info) => PlaceHarmless(s, info);
    case Publish(t, sent, acked) => PublishHarmless(s, t, sent, acked);
    case MarkPublished(t, ok) => MarkHarmless(s, t, Success);
    case Compensate(t, committed) => CompensationHarmless(s, t, committed);
    case MarkCompensated(t, ok) => MarkHarmless(s, t, Success);
    case GiveUp(t, ok) => MarkHarmless(s, t, Fail);
    case Recover(r, ok) => RecoveryHarmless(s, r, ok);
    case _ =>
  }

  lemma HarmlessKeeps(tables: T.State, db: Db, t: nat)
    requires T.TxInv(tables, t) && Harmless(tables.db, db) && KeysFree(tables, db)
    ensures T.TxInv(tables.(db := db), t)
  {
    if t in tables.txs {
      var tx, after := tables.txs[t], tables.(db := db);
      assert T.StockInv(after, t);
      assert T.WalletInv(after, t);
      assert T.RowInv(after, t);
    }
  }

  // ------------------------------------------------------------------------------ each move

  lemma CommitMatches(c: System, t: nat)
    requires Matched(c) && Possible(c, Statement(T.Commit(t)))
    ensures !T.OneStatement(c.tables.txs[t].job) && Legal(c.saga, StepsOf(c, Statement(T.Commit(t))))
    ensures Matched(After(c, Statement(T.Commit(t))))
  {
    var job := c.tables.txs[t].job;
    assert T.TxInv(c.tables, t);
    NowEnabled(c.saga, job);
    GoesOnce(c.saga, StepOf(job));
    T.CommitIsASagaStep(c.tables, t, c.saga);
    T.StepInv(c.tables, T.Commit(t));
    SagaInvariant.StepInv(c.saga, StepOf(job));
    SagaInvariant.StepBookInv(c.saga, StepOf(job));
    forall u | u in c.tables.txs && u != t ensures Called(Apply(c.saga, StepOf(job)), c.tables.txs[u].job) {
      CalledStays(c.saga, StepOf(job), c.tables.txs[u].job);
    }
  }

  lemma StatementMatches(c: System, step: T.Step)
    requires Matched(c) && Possible(c, Statement(step)) && !step.Commit?
    ensures Legal(c.saga, StepsOf(c, Statement(step))) && Matched(After(c, Statement(step)))
  {
    T.StepInv(c.tables, step);
    assert T.Apply(c.tables, step).db == c.tables.db;
  }

  lemma RefusedStep(s: State, info: OrderInfo)
    requires Message(OrderCreated, info) in s.topics && Deducted(s.db.stock, info.items) == Err(OutOfStock)
    ensures Goes(s, [ConsumeCreated(info, false)], Owe(s, FailDeduct(info)))
  {
    assert Apply(s, ConsumeCreated(info, false)) == Owe(s, FailDeduct(info));
    GoesOnce(s, ConsumeCreated(info, false));
  }

  lemma SagaStays(s: State, steps: seq<Step>)
    requires SagaInvariant.Inv(s) && SagaInvariant.BookInv(s) && Legal(s, steps)
    ensures SagaInvariant.Inv(Exec(s, steps)) && SagaInvariant.BookInv(Exec(s, steps))
  {
    SagaInvariant.RunInv(s, steps);
  }

  lemma RefuseMatches(c: System, t: nat)
    requires Matched(c) && Possible(c, Refuse(t))
    ensures Legal(c.saga, StepsOf(c, Refuse(t))) && Matched(After(c, Refuse(t)))
  {
    var info := c.tables.txs[t].job.info;
    T.RefusalIsAtomic(c.tables, t);
    assert Called(c.saga, c.tables.txs[t].job);
    RefusedStep(c.saga, info);
    SagaStays(c.saga, [ConsumeCreated(info, false)]);
    T.StepInv(c.tables, T.Rollback(t));
    EndedMatches(c, t, Owe(c.saga, FailDeduct(info)));
  }

  /** A transaction has ended without a commit. */
  lemma EndedMatches(c: System, t: nat, saga: State)
    requires Matched(c) && T.Inv(T.Ended(c.tables, t)) && SagaInvariant.Inv(saga) && SagaInvariant.BookInv(saga)
    requires saga == c.saga.(recoveries := saga.recoveries)
    ensures Matched(System(T.Ended(c.tables, t), saga))
  {
    forall u | u in c.tables.txs && u != t ensures Called(saga, c.tables.txs[u].job) {
      assert Called(c.saga, c.tables.txs[u].job);
    }
  }

  lemma OtherMatches(c: System, step: Step)
    requires Matched(c) && Possible(c, Other(step))
    ensures Legal(c.saga, StepsOf(c, Other(step))) && Matched(After(c, Other(step)))
  {
    GoesOnce(c.saga, step);
    PlainIsHarmless(c.saga, step);
    var db := Apply(c.saga, step).db;
    forall t: nat ensures T.TxInv(c.tables.(db := db), t) {
      assert T.TxInv(c.tables, t);
      HarmlessKeeps(c.tables, db, t);
    }
    SagaInvariant.StepInv(c.saga, step);
    SagaInvariant.StepBookInv(c.saga, step);
    forall t | t in c.tables.txs ensures Called(Apply(c.saga, step), c.tables.txs[t].job) {
      CalledStays(c.saga, step, c.tables.txs[t].job);
    }
  }

  /** Every move keeps the committed tables and the saga's in step. */
  lemma MoveMatches(c: System, move: Move)
    requires Matched(c) && Possible(c, move)
    ensures Legal(c.saga, StepsOf(c, move)) && Matched(After(c, move))
  {
    match move
    case Statement(step) => if step.Commit? { CommitMatches(c, step.tx); } else { StatementMatches(c, step); }
    case Refuse(t) => RefuseMatches(c, t);
    case Other(step) => OtherMatches(c, step);
  }

  // --------------------------------------------------------------------------------- runs

  predicate Begins(c: System) {
    T.Initial(c.tables) && Initial(c.saga) && c.tables.db == c.saga.db
  }

  /** The moves lead from one state of the system to another. */
  predicate Runs(c: System, moves: seq<Move>, e: System)
    decreases |moves|
  {
    if moves == [] then c == e
    else Possible(c, moves[0]) && Runs(After(c, moves[0]), moves[1..], e)
  }

  lemma {:induction false} RunMatches(c: System, moves: seq<Move>, e: System) returns (steps: seq<Step>)
    requires Matched(c) && Runs(c, moves, e)
    ensures Goes(c.saga, steps, e.saga) && Matched(e)
    decreases |moves|
  {
    if moves == [] {
      steps := [];
    } else {
      MoveMatches(c, moves[0]);
      var next := After(c, moves[0]);
      var more := RunMatches(next, moves[1..], e);
      GoesFar(c.saga, StepsOf(c, moves[0]), next.saga, more, e.saga);
      steps := StepsOf(c, moves[0]) + more;
    }
  }

  /** Every statement-level run of the system, whatever interleaves in it, is a run of the saga, and
      what it has committed are the saga's tables. */
  lemma StatementsRunTheSaga(c: System, moves: seq<Move>, e: System) returns (steps: seq<Step>)
    requires Begins(c) && Runs(c, moves, e)
    ensures Goes(c.saga, steps, e.saga) && e.tables.db == e.saga.db
  {
    SagaInvariant.InitialInv(c.saga);
    steps := RunMatches(c, moves, e);
  }

  /** So what holds of every run of the saga holds of it: the stock, for one, is never negative and
      is what the orders have left of it. */
  lemma StatementsConserveStock(c: System, moves: seq<Move>, e: System, p: nat)
    requires Begins(c) && Runs(c, moves, e) && p in e.tables.db.stock
    ensures p in c.tables.db.stock && e.tables.db.stock[p] >= 0
    ensures e.tables.db.stock[p]
            == c.tables.db.stock[p] - Accounting.Sum(e.saga.book, Accounting.Held(e.saga.log, p))
  {
    var steps := StatementsRunTheSaga(c, moves, e);
    Accounting.StockConservation(c.saga, steps, p);
  }
}
