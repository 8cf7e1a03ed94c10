/** What every step of the saga keeps. No handler looks at the status of an order or asks
    whether a stage was done before; all of this follows from the unique key of the outbox. */
module SagaInvariant {
  import opened Domain
  import opened Saga

  predicate BornInit(db: Db, id: nat, event: EventType) {
    Key(id, event) in db.outbox && db.outbox[Key(id, event)].born.Init?
  }

  predicate BornFail(db: Db, id: nat, event: EventType) {
    Key(id, event) in db.outbox && db.outbox[Key(id, event)].born.Fail?
  }

  predicate HasRow(db: Db, id: nat, event: EventType) {
    Key(id, event) in db.outbox
  }

  /** The info is that of an order as the tables hold it. */
  predicate Known(db: Db, info: OrderInfo) {
    && info.id in db.orders && info.id in db.items
    && info.userId == db.orders[info.id].userId && info.items == db.items[info.id]
  }

  predicate RowInv(db: Db, k: Key) {
    k in db.outbox ==>
      var row := db.outbox[k];
      && row.payload.id == k.id && Known(db, row.payload)
      && (row.born.Init? ==> row.status.Init? || row.status.Success?)
      && (row.born.Fail? ==> row.status.Fail? || row.status.Success?)
      && !row.born.Success?
      && (k.event.OrderCreated? || k.event.OrderSuccess? ==> row.born.Init?)
  }

  /** Each stage rests on the one before it, committed with its business effect. */
  predicate ChainInv(db: Db, id: nat) {
    && (id in db.orders <==> HasRow(db, id, OrderCreated))
    && (HasRow(db, id, OrderDeductStock) ==> id in db.orders)
    && (HasRow(db, id, OrderPayment) ==> BornInit(db, id, OrderDeductStock))
    && (HasRow(db, id, OrderSuccess) ==> BornInit(db, id, OrderPayment))
  }

  predicate MessageInv(db: Db, m: Message) {
    && !m.event.OrderSuccess?
    && BornInit(db, m.info.id, m.event)
    && db.outbox[Key(m.info.id, m.event)].payload == m.info
  }

  predicate TaskInv(s: State, t: TaskId) {
    t in s.tasks ==>
      && s.tasks[t].attempt < ATTEMPTS
      && if s.tasks[t].stage.Publishing? || s.tasks[t].stage.MarkingPublished?
         then BornInit(s.db, t.key.id, t.key.event)
         else
           && BornFail(s.db, t.key.id, t.key.event)
           && (s.tasks[t].stage.MarkingCompensated? && t.key.event.OrderDeductStock? ==>
                 t.key.id in s.db.orders && s.db.orders[t.key.id].status.Failed?)
  }

  predicate RecoveryInv(db: Db, r: Recovery) {
    && Known(db, r.info)
    && (r.FailPayment? ==> BornInit(db, r.info.id, OrderDeductStock))
  }

  /** The business effects committed for an order, read off the rows it has. */
  predicate EffectInv(s: State, id: nat) {
    && s.log[StockDeducted(id)] == (if BornInit(s.db, id, OrderDeductStock) then 1 else 0)
    && s.log[PointsUsed(id)] == (if BornInit(s.db, id, OrderPayment) then 1 else 0)
    && s.log[MarkedPaid(id)] == (if HasRow(s.db, id, OrderSuccess) then 1 else 0)
    && (s.log[StockRestored(id)] > 0 ==> BornFail(s.db, id, OrderPayment))
    && (id in s.db.orders ==>
          && (s.db.orders[id].status.Paid? <==> HasRow(s.db, id, OrderSuccess))
          && (s.db.orders[id].status.Failed? ==> BornFail(s.db, id, OrderDeductStock))
          && (BornFail(s.db, id, OrderDeductStock) && s.db.outbox[Key(id, OrderDeductStock)].status.Success? ==>
                s.db.orders[id].status.Failed?))
  }

  ghost predicate Inv(s: State) {
    && (forall k: Key :: RowInv(s.db, k))
    && (forall id: nat :: ChainInv(s.db, id))
    && (forall m | m in s.topics :: MessageInv(s.db, m))
    && (forall t: TaskId :: TaskInv(s, t))
    && (forall r | r in s.recoveries :: RecoveryInv(s.db, r))
    && (forall id: nat :: EffectInv(s, id))
  }

  lemma InitialInv(s: State)
    requires Initial(s)
    ensures Inv(s) && BookInv(s)
  {}

  lemma PlaceInv(s: State, info: OrderInfo)
    requires Inv(s) && Orderable(s, info)
    ensures Inv(Place(s, info))
  {
    var s' := Place(s, info);
    if PlaceTx(s.db, info).Ok? {
      assert ChainInv(s.db, info.id);
      forall id: nat ensures ChainInv(s'.db, id) && EffectInv(s', id) {
        assert ChainInv(s.db, id) && EffectInv(s, id);
      }
      forall k: Key ensures RowInv(s'.db, k) { assert RowInv(s.db, k); }
      forall t: TaskId ensures TaskInv(s', t) { assert TaskInv(s, t); }
    }
  }

  /** Reading a batch creates tasks of the right kind. */
  lemma PollInv(s: State, poller: nat, keys: set<Key>, status: EventStatus, stage: Stage)
    requires Inv(s) && keys <= WithStatus(s.db.outbox, status)
    requires (status.Init? && stage.Publishing?) || (status.Fail? && stage.Compensating?)
    ensures Inv(WithTasks(s, poller, keys, stage))
  {
    var s' := WithTasks(s, poller, keys, stage);
    forall t: TaskId ensures TaskInv(s', t) { assert TaskInv(s, t) && RowInv(s.db, t.key); }
    forall id: nat ensures EffectInv(s', id) { assert EffectInv(s, id); }
  }

  lemma DoneInv(s: State, t: TaskId)
    requires Inv(s)
    ensures Inv(Done(s, t))
  {
    forall u: TaskId ensures TaskInv(Done(s, t), u) { assert TaskInv(s, u); }
    forall id: nat ensures EffectInv(Done(s, t), id) { assert EffectInv(s, id); }
  }

  lemma GotoInv(s: State, t: TaskId, task: Task)
    requires Inv(s) && TaskInv(Goto(s, t, task), t)
    ensures Inv(Goto(s, t, task))
  {
    var s' := Goto(s, t, task);
    forall u: TaskId ensures TaskInv(s', u) { assert TaskInv(s, u); }
    forall id: nat ensures EffectInv(s', id) { assert EffectInv(s, id); }
  }

  /** The status of a row may be set to what its birth allows. */
  lemma StatusInv(s: State, key: Key, status: EventStatus)
    requires Inv(s) && key in s.db.outbox
    requires status.Init? ==> s.db.outbox[key].born.Init?
    requires status.Fail? ==> s.db.outbox[key].born.Fail?
    requires status.Success? && BornFail(s.db, key.id, key.event) && key.event.OrderDeductStock? ==>
               key.id in s.db.orders && s.db.orders[key.id].status.Failed?
    ensures Inv(WithDb(s, SetStatus(s.db, key, status)))
  {
    var s' := WithDb(s, SetStatus(s.db, key, status));
    forall k: Key ensures RowInv(s'.db, k) { assert RowInv(s.db, k); }
    forall id: nat ensures ChainInv(s'.db, id) && EffectInv(s', id) {
      assert ChainInv(s.db, id) && EffectInv(s, id);
    }
    forall m | m in s'.topics ensures MessageInv(s'.db, m) { assert MessageInv(s.db, m); }
    forall t: TaskId ensures TaskInv(s', t) { assert TaskInv(s, t); }
  }

  lemma PublishInv(s: State, t: TaskId, sent: bool, acked: bool)
    requires Inv(s) && Enabled(s, Publish(t, sent, acked))
    ensures Inv(PublishOnce(s, t, sent, acked))
  {
    assert TaskInv(s, t) && RowInv(s.db, t.key);
    var n := s.tasks[t].attempt;
    var s1 := if sent then s.(topics := s.topics + {Message(t.key.event, s.db.outbox[t.key].payload)}) else s;
    var s2 := if t.key.event.OrderSuccess? then s1 else s1.(log := s1.log + multiset{Emitted(t)});
    forall id: nat ensures EffectInv(s2, id) { assert EffectInv(s, id); }
    forall u: TaskId ensures TaskInv(s2, u) { assert TaskInv(s, u); }
    if acked { GotoInv(s2, t, Task(MarkingPublished, 0)); }
    else if n + 1 < ATTEMPTS { GotoInv(s2, t, Task(Publishing, n + 1)); }
    else { DoneInv(s2, t); }
  }

  lemma RetryInv(s: State, t: TaskId)
    requires Inv(s) && t in s.tasks && !s.tasks[t].stage.Publishing? && !s.tasks[t].stage.MarkingPublished?
    ensures Inv(RetryCompensation(s, t))
  {
    assert TaskInv(s, t);
    var n := s.tasks[t].attempt;
    GotoInv(s, t, if n + 1 < ATTEMPTS then Task(Compensating, n + 1) else Task(GivingUp, n));
  }

  /** The tables after a compensation, before its task moves on. */
  lemma RestoreInv(s: State, s': State, t: TaskId)
    requires Inv(s) && BornFail(s.db, t.key.id, OrderPayment)
    requires s' == s.(db := s.db.(stock := s'.db.stock),
                      log := s.log + multiset{StockRestored(t.key.id), RestoredBy(t)})
    ensures Inv(s')
  {
    forall k: Key ensures RowInv(s'.db, k) { assert RowInv(s.db, k); }
    forall id: nat ensures ChainInv(s'.db, id) && EffectInv(s', id) {
      assert ChainInv(s.db, id) && EffectInv(s, id);
    }
    forall u: TaskId ensures TaskInv(s', u) { assert TaskInv(s, u); }
  }

  lemma FailOrderInv(s: State, id: nat)
    requires Inv(s) && BornFail(s.db, id, OrderDeductStock)
    ensures Inv(WithDb(s, SetOrderStatus(s.db, id, Failed)))
  {
    var s' := WithDb(s, SetOrderStatus(s.db, id, Failed));
    assert ChainInv(s.db, id) && EffectInv(s, id);
    forall k: Key ensures RowInv(s'.db, k) { assert RowInv(s.db, k); }
    forall i: nat ensures ChainInv(s'.db, i) && EffectInv(s', i) {
      assert ChainInv(s.db, i) && EffectInv(s, i);
    }
    forall u: TaskId ensures TaskInv(s', u) { assert TaskInv(s, u); }
  }

  lemma CompensateInv(s: State, t: TaskId, committed: bool)
    requires Inv(s) && Enabled(s, Compensate(t, committed))
    ensures Inv(CompensateOnce(s, t, committed))
  {
    assert TaskInv(s, t) && RowInv(s.db, t.key) && ChainInv(s.db, t.key.id);
    var info := s.db.outbox[t.key].payload;
    var next := Task(MarkingCompensated, s.tasks[t].attempt);
    if t.key.event.OrderPayment? {
      if committed && RestoreTx(s.db, info).Ok? {
        var s1 := s.(db := RestoreTx(s.db, info).value, log := s.log + multiset{StockRestored(info.id), RestoredBy(t)});
        RestoreInv(s, s1, t);
        GotoInv(s1, t, next);
      } else {
        GotoInv(s, t, next);
      }
    } else if committed {
      FailOrderInv(s, info.id);
      GotoInv(WithDb(s, SetOrderStatus(s.db, info.id, Failed)), t, next);
    } else {
      RetryInv(s, t);
    }
  }

  /** A new row for an order, committed together with its effect on that order. */
  lemma NewRowInv(s: State, s': State, key: Key)
    requires Inv(s) && key !in s.db.outbox && key in s'.db.outbox && key.id in s.db.orders
    requires s'.db.outbox == s.db.outbox[key := s'.db.outbox[key]] && s'.db.items == s.db.items
    requires key.id in s'.db.orders
    requires s'.db.orders == s.db.orders[key.id := s.db.orders[key.id].(status := s'.db.orders[key.id].status)]
    requires s.db.orders[key.id].status.Failed? ==> s'.db.orders[key.id].status.Failed?
    requires s'.topics == s.topics && s'.tasks == s.tasks && s'.recoveries <= s.recoveries
    requires forall id: nat | id != key.id ::
               && s'.log[StockDeducted(id)] == s.log[StockDeducted(id)]
               && s'.log[PointsUsed(id)] == s.log[PointsUsed(id)]
               && s'.log[MarkedPaid(id)] == s.log[MarkedPaid(id)]
               && s'.log[StockRestored(id)] == s.log[StockRestored(id)]
    requires RowInv(s'.db, key) && ChainInv(s'.db, key.id) && EffectInv(s', key.id)
    ensures Inv(s')
  {
    forall k: Key ensures RowInv(s'.db, k) { assert RowInv(s.db, k); }
    forall id: nat ensures ChainInv(s'.db, id) && EffectInv(s', id) {
      assert ChainInv(s.db, id) && EffectInv(s, id);
    }
    forall m | m in s'.topics ensures MessageInv(s'.db, m) { assert MessageInv(s.db, m); }
    forall t: TaskId ensures TaskInv(s', t) { assert TaskInv(s, t); }
    forall q | q in s'.recoveries ensures RecoveryInv(s'.db, q) { assert q in s.recoveries; }
  }

  lemma OweInv(s: State, r: Recovery)
    requires Inv(s) && RecoveryInv(s.db, r)
    ensures Inv(Owe(s, r))
  {
    var s' := Owe(s, r);
    forall id: nat ensures EffectInv(s', id) { assert EffectInv(s, id); }
    forall t: TaskId ensures TaskInv(s', t) { assert TaskInv(s, t); }
  }

  /** What a delivered message tells about its order. */
  lemma Delivered(s: State, event: EventType, info: OrderInfo)
    requires Inv(s) && Message(event, info) in s.topics
    ensures Known(s.db, info) && BornInit(s.db, info.id, event) && !event.OrderSuccess?
    ensures ChainInv(s.db, info.id) && EffectInv(s, info.id)
  {
    assert MessageInv(s.db, Message(event, info)) && RowInv(s.db, Key(info.id, event));
  }

  lemma DeductStockInv(s: State, info: OrderInfo, fault: bool)
    requires Inv(s) && Message(OrderCreated, info) in s.topics
    ensures Inv(DeductStock(s, info, fault))
  {
    var s' := DeductStock(s, info, fault);
    Delivered(s, OrderCreated, info);
    if !fault && DeductTx(s.db, info).Ok? {
      NewRowInv(s, s', Key(info.id, OrderDeductStock));
    } else if !fault && DeductTx(s.db, info).error.OutOfStock? {
      OweInv(s, FailDeduct(info));
    } else {
      OweInv(s, ReDrive(info));
    }
  }

  lemma PayInv(s: State, info: OrderInfo, fault: bool)
    requires Inv(s) && Message(OrderDeductStock, info) in s.topics
    ensures Inv(Pay(s, info, fault))
  {
    Delivered(s, OrderDeductStock, info);
    if !fault && PaymentTx(s.db, info).Ok? {
      NewRowInv(s, Pay(s, info, fault), Key(info.id, OrderPayment));
    } else {
      OweInv(s, FailPayment(info));
    }
  }

  lemma SucceedInv(s: State, info: OrderInfo, fault: bool)
    requires Inv(s) && Message(OrderPayment, info) in s.topics
    ensures Inv(Succeed(s, info, fault))
  {
    Delivered(s, OrderPayment, info);
    if !fault && SuccessTx(s.db, info).Ok? {
      NewRowInv(s, Succeed(s, info, fault), Key(info.id, OrderSuccess));
    }
  }

  lemma ForgetInv(s: State, r: Recovery)
    requires Inv(s)
    ensures Inv(s.(recoveries := s.recoveries - multiset{r}))
  {
    var s' := s.(recoveries := s.recoveries - multiset{r});
    forall id: nat ensures EffectInv(s', id) { assert EffectInv(s, id); }
    forall t: TaskId ensures TaskInv(s', t) { assert TaskInv(s, t); }
    forall q | q in s'.recoveries ensures RecoveryInv(s'.db, q) { assert q in s.recoveries; }
  }

  lemma RecoverInv(s: State, r: Recovery, ok: bool)
    requires Inv(s) && r in s.recoveries
    ensures Inv(RecoverOnce(s, r, ok))
  {
    var id := r.info.id;
    var s1 := s.(recoveries := s.recoveries - multiset{r});
    ForgetInv(s, r);
    assert RecoveryInv(s.db, r) && ChainInv(s1.db, id) && EffectInv(s1, id) && RowInv(s1.db, Key(id, OrderCreated));
    if ok && RecoveryTx(s.db, r).Ok? {
      match r
      case FailDeduct(_) => NewRowInv(s1, RecoverOnce(s, r, ok), Key(id, OrderDeductStock));
      case FailPayment(_) => NewRowInv(s1, RecoverOnce(s, r, ok), Key(id, OrderPayment));
      case ReDrive(_) => StatusInv(s1, Key(id, OrderCreated), Init);
    }
  }

  /** Every step keeps the invariant. */
  lemma StepInv(s: State, step: Step)
    requires Inv(s) && Enabled(s, step)
    ensures Inv(Apply(s, step))
  {
    match step
    case PlaceOrder(info) => PlaceInv(s, info);
    case OpenWallet(userId) => WalletsInv(s, Apply(s, step));
    case ChargePoint(userId, amount) => WalletsInv(s, Apply(s, step));
    case PollInit(poller, keys) => PollInv(s, poller, keys, Init, Publishing);
    case Publish(t, sent, acked) => PublishInv(s, t, sent, acked);
    case MarkPublished(t, ok) =>
      assert TaskInv(s, t);
      if ok {
        StatusInv(s, t.key, Success);
        DoneInv(WithDb(s, SetStatus(s.db, t.key, Success)), t);
      } else {
        DoneInv(s, t);
      }
    case PollFail(poller, keys) => PollInv(s, poller, keys, Fail, Compensating);
    case Compensate(t, committed) => CompensateInv(s, t, committed);
    case MarkCompensated(t, ok) =>
      assert TaskInv(s, t);
      if ok {
        StatusInv(s, t.key, Success);
        DoneInv(WithDb(s, SetStatus(s.db, t.key, Success)), t);
      } else {
        RetryInv(s, t);
      }
    case GiveUp(t, ok) =>
      assert TaskInv(s, t);
      if ok {
        StatusInv(s, t.key, Fail);
        DoneInv(WithDb(s, SetStatus(s.db, t.key, Fail)), t);
      } else {
        DoneInv(s, t);
      }
    case Abandon(t) => DoneInv(s, t);
    case ConsumeCreated(info, fault) => DeductStockInv(s, info, fault);
    case ConsumeDeductStock(info, fault) => PayInv(s, info, fault);
    case ConsumePayment(info, fault) => SucceedInv(s, info, fault);
    case Recover(r, ok) => RecoverInv(s, r, ok);
  }

  lemma WalletsInv(s: State, s': State)
    requires Inv(s) && s' == s.(db := s.db.(wallets := s'.db.wallets, points := s'.db.points))
    ensures Inv(s')
  {
    forall k: Key ensures RowInv(s'.db, k) { assert RowInv(s.db, k); }
    forall id: nat ensures ChainInv(s'.db, id) && EffectInv(s', id) {
      assert ChainInv(s.db, id) && EffectInv(s, id);
    }
    forall t: TaskId ensures TaskInv(s', t) { assert TaskInv(s, t); }
  }

  /** An order as the tables hold it, with distinct, stocked products. */
  predicate Placed(db: Db, info: OrderInfo) {
    && Known(db, info)
    && info.items != [] && Distinct(info.items)
    && forall j | 0 <= j < |info.items| :: info.items[j].quantity >= 1 && info.items[j].productId in db.stock
  }

  predicate DistinctIds(book: seq<OrderInfo>) {
    forall i, j | 0 <= i < j < |book| :: book[i].id != book[j].id
  }

  predicate InBook(book: seq<OrderInfo>, id: nat) {
    exists i | 0 <= i < |book| :: book[i].id == id
  }

  /** The list of placed orders agrees with the order tables. */
  predicate BookInv(s: State) {
    && (forall i | 0 <= i < |s.book| :: Placed(s.db, s.book[i]))
    && DistinctIds(s.book)
    && (forall id | id in s.db.orders :: InBook(s.book, id))
  }

  lemma PlaceBookInv(s: State, info: OrderInfo)
    requires BookInv(s) && Orderable(s, info)
    ensures BookInv(Place(s, info))
  {
    var s' := Place(s, info);
    if PlaceTx(s.db, info).Ok? {
      forall i | 0 <= i < |s'.book| ensures Placed(s'.db, s'.book[i]) {
        if i < |s.book| { assert Placed(s.db, s.book[i]); }
      }
      forall id | id in s'.db.orders ensures InBook(s'.book, id) {
        if id == info.id {
          assert s'.book[|s.book|].id == id;
        } else {
          assert InBook(s.book, id);
          var i :| 0 <= i < |s.book| && s.book[i].id == id;
          assert s'.book[i].id == id;
        }
      }
    }
  }

  /** Nothing but order creation touches these. */
  predicate SameTables(db: Db, db': Db) {
    && db'.items == db.items && db'.orders.Keys == db.orders.Keys && db'.stock.Keys == db.stock.Keys
    && forall id | id in db.orders :: db'.orders[id].userId == db.orders[id].userId
  }

  predicate SameOrders(s: State, s': State) {
    s'.book == s.book && SameTables(s.db, s'.db)
  }

  lemma TransactionsKeepTables(db: Db, info: OrderInfo)
    ensures DeductTx(db, info).Ok? ==> SameTables(db, DeductTx(db, info).value)
    ensures PaymentTx(db, info).Ok? ==> SameTables(db, PaymentTx(db, info).value)
    ensures SuccessTx(db, info).Ok? ==> SameTables(db, SuccessTx(db, info).value)
    ensures RestoreTx(db, info).Ok? ==> SameTables(db, RestoreTx(db, info).value)
  {}

  /** What a delivered `order.created` may write: stock, one row, one recovery. */
  lemma DeductionWrites(s: State, info: OrderInfo, fault: bool)
    ensures var s' := DeductStock(s, info, fault);
            if !fault && DeductTx(s.db, info).Ok? then
              && Key(info.id, OrderDeductStock) !in s.db.outbox
              && s' == s.(db := s.db.(stock := s'.db.stock,
                                      outbox := s.db.outbox[Key(info.id, OrderDeductStock) := Row(info, Init, Init)]),
                          log := s.log + multiset{StockDeducted(info.id)})
            else
              s' == Owe(s, FailDeduct(info)) || s' == Owe(s, ReDrive(info))
  {}

  /** What a delivered `order.deduct_stock` may write. */
  lemma PaymentWrites(s: State, info: OrderInfo, fault: bool)
    ensures var s' := Pay(s, info, fault);
            if !fault && PaymentTx(s.db, info).Ok? then
              && Key(info.id, OrderPayment) !in s.db.outbox
              && s' == s.(db := s.db.(wallets := s'.db.wallets, points := s'.db.points,
                                      outbox := s.db.outbox[Key(info.id, OrderPayment) := Row(info, Init, Init)]),
                          log := s.log + multiset{PointsUsed(info.id)})
            else
              s' == Owe(s, FailPayment(info))
  {}

  lemma ConsumersKeepOrders(s: State, info: OrderInfo, fault: bool)
    ensures SameOrders(s, DeductStock(s, info, fault))
    ensures SameOrders(s, Pay(s, info, fault))
    ensures SameOrders(s, Succeed(s, info, fault))
  {
    TransactionsKeepTables(s.db, info);
  }

  lemma CompensationKeepsOrders(s: State, t: TaskId, committed: bool)
    requires t.key in s.db.outbox && InStage(s, t, Compensating)
    ensures SameOrders(s, CompensateOnce(s, t, committed))
  {
    TransactionsKeepTables(s.db, s.db.outbox[t.key].payload);
  }

  lemma MarksKeepOrders(s: State, key: Key, status: EventStatus)
    ensures SameOrders(s, WithDb(s, SetStatus(s.db, key, status)))
  {}

  lemma RecoveriesKeepOrders(s: State, r: Recovery, ok: bool)
    ensures SameOrders(s, RecoverOnce(s, r, ok))
  {}

  lemma OrdersKept(s: State, step: Step)
    requires Enabled(s, step) && !step.PlaceOrder?
    ensures SameOrders(s, Apply(s, step))
  {
    match step
    case MarkPublished(t, ok) => MarksKeepOrders(s, t.key, Success);
    case Compensate(t, committed) => CompensationKeepsOrders(s, t, committed);
    case MarkCompensated(t, ok) => MarksKeepOrders(s, t.key, Success);
    case GiveUp(t, ok) => MarksKeepOrders(s, t.key, Fail);
    case ConsumeCreated(info, fault) => ConsumersKeepOrders(s, info, fault);
    case ConsumeDeductStock(info, fault) => ConsumersKeepOrders(s, info, fault);
    case ConsumePayment(info, fault) => ConsumersKeepOrders(s, info, fault);
    case Recover(r, ok) => RecoveriesKeepOrders(s, r, ok);
    case _ =>
  }

  lemma StepBookInv(s: State, step: Step)
    requires BookInv(s) && Enabled(s, step)
    ensures BookInv(Apply(s, step))
  {
    if step.PlaceOrder? {
      PlaceBookInv(s, step.info);
    } else {
      OrdersKept(s, step);
      BookFrame(s, Apply(s, step));
    }
  }

  lemma BookFrame(s: State, s': State)
    requires BookInv(s) && SameOrders(s, s')
    ensures BookInv(s')
  {
    forall i | 0 <= i < |s'.book| ensures Placed(s'.db, s'.book[i]) { assert Placed(s.db, s.book[i]); }
  }

  /** And so does every run. */
  lemma {:induction false} RunInv(s: State, steps: seq<Step>)
    requires Inv(s) && BookInv(s) && Legal(s, steps)
    ensures Inv(Exec(s, steps)) && BookInv(Exec(s, steps))
    decreases |steps|
  {
    if steps != [] {
      StepInv(s, steps[0]);
      StepBookInv(s, steps[0]);
      RunInv(Apply(s, steps[0]), steps[1..]);
    }
  }
}
