/** What a completed order has done to stock and money, and what it takes for the books to
    balance. */
module Completion {
  import opened Domain
  import opened Saga
  import opened SagaInvariant
  import opened Accounting

  predicate Finished(db: Db, id: nat, event: EventType) {
    HasRow(db, id, event) && db.outbox[Key(id, event)].status.Success?
  }

  /** Every row the order should have is there and none waits for a poller. */
  predicate Complete(db: Db, id: nat) {
    && Finished(db, id, OrderCreated) && Finished(db, id, OrderDeductStock)
    && (BornInit(db, id, OrderDeductStock) ==> Finished(db, id, OrderPayment))
    && (BornInit(db, id, OrderPayment) ==> Finished(db, id, OrderSuccess))
  }

  predicate AllComplete(db: Db) {
    forall id | id in db.orders :: Complete(db, id)
  }

  /** PAID, deducted once, charged once, never restored. */
  predicate EndedPaid(s: State, id: nat) {
    && id in s.db.orders && s.db.orders[id].status.Paid?
    && s.log[StockDeducted(id)] == 1 && s.log[PointsUsed(id)] == 1 && s.log[StockRestored(id)] == 0
  }

  /** FAILED, never deducted, never charged. */
  predicate EndedOutOfStock(s: State, id: nat) {
    && id in s.db.orders && s.db.orders[id].status.Failed?
    && s.log[StockDeducted(id)] == 0 && s.log[PointsUsed(id)] == 0 && s.log[StockRestored(id)] == 0
  }

  /** Still PENDING_PAYMENT, deducted once, never charged; how often its stock was restored
      is left open. */
  predicate EndedUnpaid(s: State, id: nat) {
    && id in s.db.orders && s.db.orders[id].status.PendingPayment?
    && s.log[StockDeducted(id)] == 1 && s.log[PointsUsed(id)] == 0
  }

  /** In every run, a complete order has ended in exactly one of the three ways. */
  lemma CompleteOrdersEndOneWay(s: State, steps: seq<Step>, id: nat)
    requires Initial(s) && Legal(s, steps) && Complete(Exec(s, steps).db, id)
    ensures var e := Exec(s, steps);
            && (EndedPaid(e, id) || EndedOutOfStock(e, id) || EndedUnpaid(e, id))
            && !(EndedPaid(e, id) && EndedOutOfStock(e, id)) && !(EndedPaid(e, id) && EndedUnpaid(e, id))
            && !(EndedOutOfStock(e, id) && EndedUnpaid(e, id))
  {
    InitialInv(s);
    RunInv(s, steps);
    Ending(Exec(s, steps), id);
  }

  lemma Ending(e: State, id: nat)
    requires Inv(e) && Complete(e.db, id)
    ensures EndedPaid(e, id) || EndedOutOfStock(e, id) || EndedUnpaid(e, id)
  {
    assert EffectInv(e, id) && ChainInv(e.db, id);
    assert RowInv(e.db, Key(id, OrderDeductStock)) && RowInv(e.db, Key(id, OrderPayment));
  }

  // ---------------------------------------------------------------- balancing the books

  function PaidUnits(db: Db, p: nat): OrderInfo -> int {
    (o: OrderInfo) => if o.id in db.orders && db.orders[o.id].status.Paid? then LastQty(o.items, p) else 0
  }

  /** What a restore too few or too many leaves behind. */
  function Imbalance(s: State, p: nat): OrderInfo -> int {
    (o: OrderInfo) =>
      if o.id in s.db.orders && s.db.orders[o.id].status.PendingPayment?
      then (1 - s.log[StockRestored(o.id)] as int) * LastQty(o.items, p) else 0
  }

  /** In every run, once all orders are complete, the stock that is gone is the units of the
      PAID orders plus the imbalance of the unpaid ones. */
  lemma CompleteBooks(s: State, steps: seq<Step>, p: nat)
    requires Initial(s) && Legal(s, steps) && AllComplete(Exec(s, steps).db) && p in Exec(s, steps).db.stock
    ensures p in s.db.stock
    ensures var e := Exec(s, steps);
            s.db.stock[p] - e.db.stock[p] == Sum(e.book, PaidUnits(e.db, p)) + Sum(e.book, Imbalance(e, p))
  {
    InitialInv(s);
    RunInv(s, steps);
    StockConservation(s, steps, p);
    HeldByEnding(Exec(s, steps), p);
  }

  lemma HeldByEnding(e: State, p: nat)
    requires Inv(e) && BookInv(e) && AllComplete(e.db)
    ensures Sum(e.book, Held(e.log, p)) == Sum(e.book, PaidUnits(e.db, p)) + Sum(e.book, Imbalance(e, p))
  {
    forall i | 0 <= i < |e.book|
      ensures Held(e.log, p)(e.book[i]) == PaidUnits(e.db, p)(e.book[i]) + Imbalance(e, p)(e.book[i])
    {
      assert Placed(e.db, e.book[i]);
      HeldByOne(e, e.book[i], p);
    }
    SumPlus(e.book, PaidUnits(e.db, p), Imbalance(e, p), Held(e.log, p));
  }

  lemma HeldByOne(e: State, o: OrderInfo, p: nat)
    requires Inv(e) && Complete(e.db, o.id)
    ensures Held(e.log, p)(o) == PaidUnits(e.db, p)(o) + Imbalance(e, p)(o)
  {
    Ending(e, o.id);
  }

  // --------------------------------------------------------------- undisturbed restores

  /** One poller, restores that commit, marks of compensations that succeed, no crash between
      the two. Everything else may fail. */
  predicate Undisturbed(s: State, step: Step) {
    match step
    case PollInit(poller, _) => poller == 0
    case PollFail(poller, _) => poller == 0
    case Compensate(t, committed) => t.key.event.OrderPayment? ==> committed
    case MarkCompensated(_, ok) => ok
    case Abandon(t) => !InStage(s, t, MarkingCompensated)
    case _ => true
  }

  predicate UndisturbedRun(s: State, steps: seq<Step>)
    requires Legal(s, steps)
    decreases |steps|
  {
    steps != [] ==> Undisturbed(s, steps[0]) && UndisturbedRun(Apply(s, steps[0]), steps[1..])
  }

  predicate OnePoller(s: State) {
    forall t | t in s.tasks :: t.poller == 0
  }

  /** The restores of an order, read off its payment row and the task at it. */
  predicate RestoreInv(s: State, id: nat) {
    var k := Key(id, OrderPayment);
    var t := TaskId(0, k);
    if !BornFail(s.db, id, OrderPayment) then s.log[StockRestored(id)] == 0
    else if s.db.outbox[k].status.Success? then s.log[StockRestored(id)] == 1 && t !in s.tasks
    else
      && s.log[StockRestored(id)] == (if InStage(s, t, MarkingCompensated) then 1 else 0)
      && !InStage(s, t, GivingUp)
  }

  lemma PollRestores(s: State, keys: set<Key>, status: EventStatus, stage: Stage, id: nat)
    requires Inv(s) && Idle(s, 0) && keys <= WithStatus(s.db.outbox, status) && RestoreInv(s, id)
    requires (status.Init? && stage.Publishing?) || (status.Fail? && stage.Compensating?)
    ensures RestoreInv(WithTasks(s, 0, keys, stage), id)
  {
    assert RowInv(s.db, Key(id, OrderPayment));
  }

  lemma PublishRestores(s: State, t: TaskId, sent: bool, acked: bool, id: nat)
    requires TaskInv(s, t) && RestoreInv(s, id) && InStage(s, t, Publishing) && t.key in s.db.outbox
    ensures RestoreInv(PublishOnce(s, t, sent, acked), id)
  {}

  lemma MarkPublishedRestores(s: State, t: TaskId, ok: bool, id: nat)
    requires TaskInv(s, t) && RestoreInv(s, id) && InStage(s, t, MarkingPublished)
    ensures RestoreInv(Done(s, t), id)
    ensures RestoreInv(Done(WithDb(s, SetStatus(s.db, t.key, Success)), t), id)
  {}

  lemma CompensateRestores(s: State, t: TaskId, committed: bool, id: nat)
    requires TaskInv(s, t) && RestoreInv(s, id) && InStage(s, t, Compensating) && t.key in s.db.outbox && t.poller == 0
    requires RowInv(s.db, t.key) && Placed(s.db, s.db.outbox[t.key].payload)
    requires t.key.event.OrderPayment? ==> committed
    ensures RestoreInv(CompensateOnce(s, t, committed), id)
  {
    if t.key.event.OrderPayment? { CompensationWrites(s, t, committed); }
  }

  lemma MarkCompensatedRestores(s: State, t: TaskId, id: nat)
    requires TaskInv(s, t) && RestoreInv(s, id) && InStage(s, t, MarkingCompensated) && t.poller == 0
    ensures RestoreInv(Done(WithDb(s, SetStatus(s.db, t.key, Success)), t), id)
  {}

  lemma GiveUpRestores(s: State, t: TaskId, id: nat)
    requires TaskInv(s, t) && RestoreInv(s, id) && InStage(s, t, GivingUp) && t.poller == 0
    ensures RestoreInv(Done(s, t), id)
    ensures RestoreInv(Done(WithDb(s, SetStatus(s.db, t.key, Fail)), t), id)
  {}

  lemma DeductStockRestores(s: State, info: OrderInfo, fault: bool, id: nat)
    requires RestoreInv(s, id)
    ensures RestoreInv(DeductStock(s, info, fault), id)
  {
    DeductionWrites(s, info, fault);
  }

  lemma PayRestores(s: State, info: OrderInfo, fault: bool, id: nat)
    requires RestoreInv(s, id)
    ensures RestoreInv(Pay(s, info, fault), id)
  {
    PaymentWrites(s, info, fault);
  }

  lemma SucceedRestores(s: State, info: OrderInfo, fault: bool, id: nat)
    requires RestoreInv(s, id)
    ensures RestoreInv(Succeed(s, info, fault), id)
  {}

  lemma RecoverRestores(s: State, r: Recovery, ok: bool, id: nat)
    requires RestoreInv(s, id) && TaskInv(s, TaskId(0, Key(id, OrderPayment)))
    ensures RestoreInv(RecoverOnce(s, r, ok), id)
  {}

  lemma StepRestores(s: State, step: Step, id: nat)
    requires Inv(s) && BookInv(s) && OnePoller(s) && Enabled(s, step) && Undisturbed(s, step) && RestoreInv(s, id)
    ensures RestoreInv(Apply(s, step), id)
  {
    assert TaskInv(s, TaskId(0, Key(id, OrderPayment)));
    match step
    case PlaceOrder(info) => assert RestoreInv(Place(s, info), id);
    case PollInit(poller, keys) => PollRestores(s, keys, Init, Publishing, id);
    case Publish(t, sent, acked) =>
      assert TaskInv(s, t);
      PublishRestores(s, t, sent, acked, id);
    case MarkPublished(t, ok) =>
      assert TaskInv(s, t);
      MarkPublishedRestores(s, t, ok, id);
    case PollFail(poller, keys) => PollRestores(s, keys, Fail, Compensating, id);
    case Compensate(t, committed) =>
      assert TaskInv(s, t) && RowInv(s.db, t.key);
      var _ := PlaceOf(s, s.db.outbox[t.key].payload);
      CompensateRestores(s, t, committed, id);
    case MarkCompensated(t, ok) =>
      assert TaskInv(s, t);
      MarkCompensatedRestores(s, t, id);
    case GiveUp(t, ok) =>
      assert TaskInv(s, t);
      GiveUpRestores(s, t, id);
    case ConsumeCreated(info, fault) => DeductStockRestores(s, info, fault, id);
    case ConsumeDeductStock(info, fault) => PayRestores(s, info, fault, id);
    case ConsumePayment(info, fault) => SucceedRestores(s, info, fault, id);
    case Recover(r, ok) => RecoverRestores(s, r, ok, id);
    case _ =>
  }

  lemma StepOnePoller(s: State, step: Step)
    requires OnePoller(s) && Enabled(s, step) && Undisturbed(s, step)
    ensures OnePoller(Apply(s, step))
  {}

  lemma {:induction false} RunRestores(s: State, steps: seq<Step>, id: nat)
    requires Inv(s) && BookInv(s) && OnePoller(s) && RestoreInv(s, id)
    requires Legal(s, steps) && UndisturbedRun(s, steps)
    ensures RestoreInv(Exec(s, steps), id)
    decreases |steps|
  {
    if steps != [] {
      StepInv(s, steps[0]);
      StepBookInv(s, steps[0]);
      StepOnePoller(s, steps[0]);
      StepRestores(s, steps[0], id);
      RunRestores(Apply(s, steps[0]), steps[1..], id);
    }
  }

  /** In an undisturbed run an order is restored at most once, and a complete unpaid order
      exactly once; so once all orders are complete, the stock that is gone is exactly the
      units of the PAID orders. */
  lemma UndisturbedRunsRestoreOnce(s: State, steps: seq<Step>, id: nat)
    requires Initial(s) && Legal(s, steps) && UndisturbedRun(s, steps)
    ensures Exec(s, steps).log[StockRestored(id)] <= 1
    ensures Complete(Exec(s, steps).db, id) && EndedUnpaid(Exec(s, steps), id) ==>
              Exec(s, steps).log[StockRestored(id)] == 1
  {
    InitialInv(s);
    RunInv(s, steps);
    RunRestores(s, steps, id);
    var e := Exec(s, steps);
    assert EffectInv(e, id) && ChainInv(e.db, id) && RowInv(e.db, Key(id, OrderPayment));
  }

  lemma UndisturbedBooksBalance(s: State, steps: seq<Step>, p: nat)
    requires Initial(s) && Legal(s, steps) && UndisturbedRun(s, steps)
    requires AllComplete(Exec(s, steps).db) && p in Exec(s, steps).db.stock
    ensures p in s.db.stock
    ensures s.db.stock[p] - Exec(s, steps).db.stock[p] == Sum(Exec(s, steps).book, PaidUnits(Exec(s, steps).db, p))
  {
    CompleteBooks(s, steps, p);
    InitialInv(s);
    RunInv(s, steps);
    var e := Exec(s, steps);
    forall id: nat ensures RestoredOnce(e, id) { UndisturbedRunsRestoreOnce(s, steps, id); }
    NoImbalance(e, p);
  }

  predicate RestoredOnce(e: State, id: nat) {
    Complete(e.db, id) && EndedUnpaid(e, id) ==> e.log[StockRestored(id)] == 1
  }

  lemma NoImbalance(e: State, p: nat)
    requires Inv(e) && BookInv(e) && AllComplete(e.db) && forall id: nat :: RestoredOnce(e, id)
    ensures Sum(e.book, Imbalance(e, p)) == 0
  {
    forall i | 0 <= i < |e.book| ensures Imbalance(e, p)(e.book[i]) == 0 {
      assert Placed(e.db, e.book[i]) && RestoredOnce(e, e.book[i].id);
      Ending(e, e.book[i].id);
    }
    SumZero(e.book, Imbalance(e, p));
  }

  lemma {:induction false} SumZero(book: seq<OrderInfo>, f: OrderInfo -> int)
    requires forall i | 0 <= i < |book| :: f(book[i]) == 0
    ensures Sum(book, f) == 0
  {
    if book != [] { SumZero(book[..|book| - 1], f); }
  }

  // ------------------------------------------------------------------ what disturbs them

  /** A restore whose mark fails is done again, up to the fourth attempt. */
  lemma FailedMarkRestoresAgain(s: State, t: TaskId)
    requires Inv(s) && BookInv(s) && InStage(s, t, MarkingCompensated) && t.key.event.OrderPayment?
    requires s.tasks[t].attempt + 1 < ATTEMPTS
    ensures t.key in s.db.outbox
    ensures var again := [MarkCompensated(t, false), Compensate(t, true)];
            && Legal(s, again) && InStage(Exec(s, again), t, MarkingCompensated)
            && Exec(s, again).log[StockRestored(t.key.id)] == s.log[StockRestored(t.key.id)] + 1
            && forall p | p in s.db.stock ::
                 p in Exec(s, again).db.stock
                 && Exec(s, again).db.stock[p] == s.db.stock[p] + FirstQty(s.db.outbox[t.key].payload.items, p)
  {
    assert TaskInv(s, t) && RowInv(s.db, t.key);
    var _ := PlaceOf(s, s.db.outbox[t.key].payload);
    var s1 := RetryCompensation(s, t);
    assert s1 == Goto(s, t, Task(Compensating, s.tasks[t].attempt + 1));
    CompensationWrites(s1, t, true);
    GoesTwice(s, MarkCompensated(t, false), s1, Compensate(t, true));
  }

  /** A restore that fails is swallowed and its row marked: the units never come back. */
  lemma FailedRestoreIsForgotten(s: State, t: TaskId)
    requires Inv(s) && InStage(s, t, Compensating) && t.key.event.OrderPayment?
    ensures t.key in s.db.outbox
    ensures var lost := [Compensate(t, false), MarkCompensated(t, true)];
            && Legal(s, lost) && t !in Exec(s, lost).tasks
            && Exec(s, lost).db == SetStatus(s.db, t.key, Success).value
            && Exec(s, lost).log == s.log
  {
    assert TaskInv(s, t) && RowInv(s.db, t.key);
    var s1 := Goto(s, t, Task(MarkingCompensated, s.tasks[t].attempt));
    GoesTwice(s, Compensate(t, false), s1, MarkCompensated(t, true));
  }
}
