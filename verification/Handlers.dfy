/** The services and facades that run the transactions: each loads models, changes them, writes
    them back and inserts an outbox row, rolls back on any error, and then writes what the
    error calls for. Each is proved to do to the tables what the saga's step does. */
module Handlers {
  import opened Domain
  import opened Effects
  import opened Saga
  import opened Store

  /** The tables after a recovery write that may be refused. */
  function Recovered(db: Db, r: Recovery, ok: bool): Db {
    if ok && RecoveryTx(db, r).Ok? then RecoveryTx(db, r).value else db
  }

  /** The tables after a transaction that may fail, and its recovery if it did. */
  function Handled(db: Db, r: Result<Db>, recovery: Recovery, recovers: bool): Db {
    if r.Ok? then r.value else Recovered(db, recovery, recovers)
  }

  function Attempt(fault: bool, r: Result<Db>): Result<Db> {
    if fault then Err(Conflict) else r
  }

  function DeductRecovery(info: OrderInfo, r: Result<Db>): Recovery {
    if r == Err(OutOfStock) then FailDeduct(info) else ReDrive(info)
  }

  // ------------------------------------------------------------------------ reached faults

  /** A fault among the writes of the locked rows, which come after the last check. */
  predicate WriteFails(stock: map<nat, int>, items: seq<Item>, fault: Fault) {
    && Deducted(stock, items).Ok? && fault.At?
    && 3 <= fault.statement < 3 + |Locked(stock.Keys, items)|
  }

  /** Whether a deduction fails by a statement: 0 locks the rows, 3 and on write them. */
  predicate StockHit(stock: map<nat, int>, items: seq<Item>, fault: Fault) {
    fault == At(0) || WriteFails(stock, items, fault)
  }

  /** Statement 1 inserts the event, 2 commits. A statement is reached if all before it went
      through. */
  predicate DeductHit(db: Db, info: OrderInfo, fault: Fault) {
    || StockHit(db.stock, info.items, fault)
    || (fault == At(1) && Deducted(db.stock, info.items).Ok?)
    || (fault == At(2) && DeductTx(db, info).Ok?)
  }

  /** Statement 0 reads the wallet, 1 writes the point row, 2 the balance. */
  predicate PayHit(db: Db, userId: nat, amount: nat, fault: Fault) {
    fault == At(0) || ((fault == At(1) || fault == At(2)) && PayFor(db, userId, amount).Ok?)
  }

  /** Statement 3 inserts the event, 4 commits. */
  predicate PaymentHit(db: Db, info: OrderInfo, fault: Fault) {
    || PayHit(db, info.userId, Amount(info.items), fault)
    || (fault == At(3) && PayFor(db, info.userId, Amount(info.items)).Ok?)
    || (fault == At(4) && PaymentTx(db, info).Ok?)
  }

  /** Statements 0 and 1 read and update the order, 2 inserts the event, 3 commits. */
  predicate SuccessHit(db: Db, info: OrderInfo, fault: Fault) {
    || fault == At(0)
    || ((fault == At(1) || fault == At(2)) && info.id in db.orders)
    || (fault == At(3) && SuccessTx(db, info).Ok?)
  }

  /** Statement 0 reads the wallet, 1 updates it, 2 inserts the point row, 3 commits. */
  predicate ChargeHit(db: Db, userId: nat, fault: Fault) {
    fault == At(0) || ((fault == At(1) || fault == At(2) || fault == At(3)) && userId in db.wallets)
  }

  /** Statement 0 inserts the order, 1 its items, 2 the event, 3 commits. */
  predicate PlaceHit(db: Db, info: OrderInfo, fault: Fault) {
    || fault == At(0) || fault == At(1)
    || (fault == At(2) && info.items != [] && Distinct(info.items))
    || (fault == At(3) && PlaceTx(db, info).Ok?)
  }

  // ---------------------------------------------------------------------------- services

  /** `ProductService.deductStock`. */
  method DeductStock(db: Database, items: seq<Item>, fault: Fault) returns (thrown: Thrown)
    modifies db`stock
    ensures StockHit(old(db.stock), items, fault) ==> thrown == Threw(AppConflict(OrderFailed))
    ensures !StockHit(old(db.stock), items, fault) ==>
              match Deducted(old(db.stock), items)
              case Ok(stock) => thrown.Nothing? && db.stock == stock
              case Err(e) => thrown.Threw? && ErrorOf(thrown.e) == e
  {
    ghost var before := db.stock;
    var t, rows := db.FindByIdsWithXLock(ProductIds(items), fault != At(0));
    if t.Threw? {
      assert items != [] ==> items[0].productId in ProductIds(items);
      return t;
    }
    RowCount(rows, before, items);
    var i := 0;
    while i < |rows|
      invariant 0 <= i <= |rows| && fresh(rows)
      invariant db.stock == before && Loaded(rows, before, ProductIds(items))
      invariant forall j | 0 <= j < i :: Covers(before, items, rows[j])
      invariant forall j | i <= j < |rows| :: rows[j].stock == before[rows[j].productId]
    {
      var out := rows[i].Deduct(LastQty(items, rows[i].productId));
      if out.Threw? {
        assert Ordered(items, rows[i].productId);
        return out;
      }
      i := i + 1;
    }
    EnoughOfEach(before, items, rows);
    thrown := db.UpdateBulk(rows, fault, 3);
    if thrown.Nothing? { AllDeducted(before, items, rows, db.stock); }
  }

  /** A model that has been lowered by its quantity. */
  ghost predicate Covers(before: map<nat, int>, items: seq<Item>, row: ProductStockModel)
    reads row
  {
    && row.productId in before
    && before[row.productId] >= LastQty(items, row.productId)
    && row.stock == before[row.productId] - LastQty(items, row.productId)
  }

  lemma EnoughOfEach(before: map<nat, int>, items: seq<Item>, rows: seq<ProductStockModel>)
    requires Loaded(rows, before, ProductIds(items))
    requires forall j | 0 <= j < |rows| :: Covers(before, items, rows[j])
    ensures !Short(before, items)
  {
    forall p | p in before && Ordered(items, p) ensures before[p] >= LastQty(items, p) {
      assert HasModel(rows, p);
    }
  }

  lemma AllDeducted(before: map<nat, int>, items: seq<Item>, rows: seq<ProductStockModel>, after: map<nat, int>)
    requires Loaded(rows, before, ProductIds(items)) && items != [] && !Short(before, items)
    requires forall j | 0 <= j < |rows| :: Covers(before, items, rows[j])
    requires after.Keys == before.Keys
    requires forall j | 0 <= j < |rows| :: after[rows[j].productId] == rows[j].stock
    requires forall p | p in after && !HasModel(rows, p) :: after[p] == before[p]
    ensures Deducted(before, items) == Ok(after)
  {
    forall p | p in before ensures after[p] == before[p] - LastQty(items, p) {
      if !HasModel(rows, p) { NotOrdered(items, p); }
    }
    assert after == map p | p in before :: before[p] - LastQty(items, p);
  }

  /** `WalletService.completePayment`. */
  method CompletePayment(db: Database, userId: nat, amount: nat, fault: Fault) returns (thrown: Thrown)
    modifies db`wallets, db`points
    ensures PayHit(old(db.Tables()), userId, amount, fault) ==> thrown.Threw?
    ensures !PayHit(old(db.Tables()), userId, amount, fault) ==>
              match PayFor(old(db.Tables()), userId, amount)
              case Ok(paid) => thrown.Nothing? && db.Tables() == paid
              case Err(e) => thrown.Threw? && ErrorOf(thrown.e) == e
    ensures !PayHit(old(db.Tables()), userId, amount, fault) ==>
              (thrown.Nothing? <==> userId in old(db.wallets) && old(db.wallets)[userId].totalPoint >= amount)
    ensures thrown.Nothing? ==>
              && userId in old(db.wallets)
              && db.wallets == old(db.wallets)[userId := Wallet(old(db.wallets)[userId].totalPoint - amount,
                                                                old(db.wallets)[userId].version + 1)]
              && db.points == old(db.points) + [Point(userId, -(amount as int), Use)]
  {
    var t, wallet := db.GetWallet(userId, fault != At(0));
    if t.Threw? { return t; }
    t := wallet.Payable(amount);
    if t.Threw? { return t; }
    t := db.CreatePoint(Point(userId, -(amount as int), Use), fault != At(1));
    if t.Nothing? {
      t := db.UpdateWallet(userId, wallet.totalPoint - amount, wallet.version, fault != At(2));
    }
    thrown := if t == Threw(Other) then Threw(AppConflict(PaymentFailed)) else t;
  }

  // ----------------------------------------------------------------------------- facades

  predicate CoveredBy(stock: map<nat, int>, items: seq<Item>) {
    forall i | 0 <= i < |items| && items[i].productId in stock :: stock[items[i].productId] >= items[i].quantity
  }

  /** The three ends of a deduction, and no other: every stocked product lower by its quantity and
      an INIT row; too little stock and a FAIL row; anything else and `order.created` INIT again. */
  predicate DeductionOutcome(was: Db, now: Db, info: OrderInfo, fault: Fault, recovers: bool) {
    var (key, created) := (Key(info.id, OrderDeductStock), Key(info.id, OrderCreated));
    && now == was.(stock := now.stock, outbox := now.outbox)
    && if info.items != [] && !DeductHit(was, info, fault) && key !in was.outbox && CoveredBy(was.stock, info.items)
       then
         && now.outbox == was.outbox[key := Row(info, Init, Init)]
         && now.stock.Keys == was.stock.Keys
         && (forall i | 0 <= i < |info.items| && info.items[i].productId in was.stock ::
               now.stock[info.items[i].productId] == was.stock[info.items[i].productId] - info.items[i].quantity)
         && (forall p | p in was.stock && !Ordered(info.items, p) :: now.stock[p] == was.stock[p])
       else
         && now.stock == was.stock
         && now.outbox ==
              if !recovers then was.outbox
              else if info.items != [] && fault != At(0) && !CoveredBy(was.stock, info.items) then
                if key in was.outbox then was.outbox else was.outbox[key := Row(info, Fail, Fail)]
              else if created in was.outbox then was.outbox[created := was.outbox[created].(status := Init)]
              else was.outbox
  }

  lemma DeductionComesTo(db: Db, info: OrderInfo, fault: Fault, recovers: bool)
    requires Distinct(info.items)
    ensures var r := Attempt(DeductHit(db, info, fault), DeductTx(db, info));
            DeductionOutcome(db, Handled(db, r, DeductRecovery(info, r), recovers), info, fault, recovers)
  {
    if info.items != [] {
      if !DeductHit(db, info, fault) && DeductTx(db, info).Ok? {
        DeductedExactly(db, info);
      } else {
        RefusalIs(db, info);
        RefusalComesTo(db, info, fault, recovers);
      }
    }
  }

  lemma RefusalIs(db: Db, info: OrderInfo)
    requires info.items != [] && Distinct(info.items)
    ensures DeductTx(db, info) == Err(OutOfStock) <==> !CoveredBy(db.stock, info.items)
    ensures DeductTx(db, info).Ok? <==>
            CoveredBy(db.stock, info.items) && Key(info.id, OrderDeductStock) !in db.outbox
    ensures Deducted(db.stock, info.items).Ok? <==> CoveredBy(db.stock, info.items)
  {
    DeductionIsAllOrNothing(db.stock, info.items);
  }

  lemma RefusalComesTo(db: Db, info: OrderInfo, fault: Fault, recovers: bool)
    requires info.items != [] && (DeductHit(db, info, fault) || DeductTx(db, info).Err?)
    requires DeductTx(db, info) == Err(OutOfStock) <==> !CoveredBy(db.stock, info.items)
    requires DeductTx(db, info).Ok? <==>
             CoveredBy(db.stock, info.items) && Key(info.id, OrderDeductStock) !in db.outbox
    requires Deducted(db.stock, info.items).Ok? <==> CoveredBy(db.stock, info.items)
    ensures var r := Attempt(DeductHit(db, info, fault), DeductTx(db, info));
            DeductionOutcome(db, Handled(db, r, DeductRecovery(info, r), recovers), info, fault, recovers)
  {
  }

  /** `ProductFacade.processOrderDeductStock`. */
  method ProcessOrderDeductStock(db: Database, info: OrderInfo, fault: Fault, recovers: bool)
    modifies db
    ensures var r := Attempt(DeductHit(old(db.Tables()), info, fault), DeductTx(old(db.Tables()), info));
            db.Tables() == Handled(old(db.Tables()), r, DeductRecovery(info, r), recovers)
    ensures Distinct(info.items) ==> DeductionOutcome(old(db.Tables()), db.Tables(), info, fault, recovers)
  {
    if Distinct(info.items) { DeductionComesTo(db.Tables(), info, fault, recovers); }
    var saved := db.Tables();
    var thrown := DeductStock(db, info.items, fault);
    if thrown.Nothing? { thrown := db.CreateOutbox(info, OrderDeductStock, Init, fault != At(1)); }
    if thrown.Nothing? && fault == At(2) { thrown := Threw(Other); }
    if thrown.Threw? {
      db.Rollback(saved);
      if Classified(thrown.e) == AppConflict(ProductOutOfStock) {
        var _ := db.CreateOutbox(info, OrderDeductStock, Fail, recovers);
      } else if Key(info.id, OrderCreated) in db.outbox {
        var _ := db.UpdateByAggregateIdAndEventType(Key(info.id, OrderCreated), Init, recovers);
      }
    }
  }

  /** `UserFacade.processOrderPayment`. */
  method ProcessOrderPayment(db: Database, info: OrderInfo, fault: Fault, recovers: bool)
    modifies db
    ensures var r := Attempt(PaymentHit(old(db.Tables()), info, fault), PaymentTx(old(db.Tables()), info));
            db.Tables() == Handled(old(db.Tables()), r, FailPayment(info), recovers)
    ensures var (was, key) := (old(db.Tables()), Key(info.id, OrderPayment));
            if !PaymentHit(was, info, fault) && info.userId in was.wallets && key !in was.outbox
               && was.wallets[info.userId].totalPoint >= Cost(info.items)
            then
              && db.outbox == was.outbox[key := Row(info, Init, Init)]
              && db.wallets == was.wallets[info.userId :=
                                 Wallet(was.wallets[info.userId].totalPoint - Cost(info.items),
                                        was.wallets[info.userId].version + 1)]
              && db.points == was.points + [Point(info.userId, -(Cost(info.items) as int), Use)]
            else db.wallets == was.wallets && db.points == was.points
  {
    AmountIsCost(info.items);
    var saved := db.Tables();
    var thrown := CompletePayment(db, info.userId, Amount(info.items), fault);
    if thrown.Nothing? { thrown := db.CreateOutbox(info, OrderPayment, Init, fault != At(3)); }
    if thrown.Nothing? && fault == At(4) { thrown := Threw(Other); }
    if thrown.Threw? {
      db.Rollback(saved);
      var _ := db.CreateOutbox(info, OrderPayment, Fail, recovers);
    }
  }

  /** `OrderFacade.processOrderSuccess`. */
  method ProcessOrderSuccess(db: Database, info: OrderInfo, fault: Fault) returns (thrown: Thrown)
    modifies db
    ensures var r := Attempt(SuccessHit(old(db.Tables()), info, fault), SuccessTx(old(db.Tables()), info));
            && thrown.Nothing? == r.Ok?
            && db.Tables() == if r.Ok? then r.value else old(db.Tables())
    ensures var (was, key) := (old(db.Tables()), Key(info.id, OrderSuccess));
            if !SuccessHit(was, info, fault) && info.id in was.orders && key !in was.outbox
            then db.Tables() == was.(orders := was.orders[info.id := Order(was.orders[info.id].userId, Paid)],
                                     outbox := was.outbox[key := Row(info, Init, Init)])
            else db.Tables() == was
  {
    var saved := db.Tables();
    thrown := db.GetOrder(info.id, fault != At(0));
    if thrown.Nothing? { thrown := db.UpdateOrder(info.id, Paid, fault != At(1)); }
    if thrown.Nothing? { thrown := db.CreateOutbox(info, OrderSuccess, Init, fault != At(2)); }
    if thrown.Nothing? && fault == At(3) { thrown := Threw(Other); }
    if thrown.Threw? {
      db.Rollback(saved);
      thrown := Threw(Classified(thrown.e));
    }
  }

  /** `PointService.chargePoint`. */
  method ChargePoint(db: Database, userId: nat, amount: nat, fault: Fault) returns (thrown: Thrown)
    modifies db
    ensures var r := Attempt(ChargeHit(old(db.Tables()), userId, fault), ChargeTx(old(db.Tables()), userId, amount));
            && thrown.Nothing? == r.Ok?
            && db.Tables() == if r.Ok? then r.value else old(db.Tables())
    ensures thrown.Nothing? <==> userId in old(db.wallets) && !ChargeHit(old(db.Tables()), userId, fault)
    ensures thrown.Nothing? ==>
              && db.wallets == old(db.wallets)[userId := Wallet(old(db.wallets)[userId].totalPoint + amount,
                                                                old(db.wallets)[userId].version + 1)]
              && db.points == old(db.points) + [Point(userId, amount, PointKind.Charge)]
              && db.Tables() == old(db.Tables()).(wallets := db.wallets, points := db.points)
  {
    var saved := db.Tables();
    var wallet;
    thrown, wallet := db.GetWallet(userId, fault != At(0));
    if thrown.Nothing? {
      wallet.Charge(amount);
      thrown := db.UpdateWallet(userId, wallet.totalPoint, wallet.version, fault != At(1));
    }
    if thrown.Nothing? { thrown := db.CreatePoint(Point(userId, amount, Charge), fault != At(2)); }
    if thrown.Nothing? && fault == At(3) { thrown := Threw(Other); }
    if thrown.Threw? {
      db.Rollback(saved);
      thrown := Threw(Classified(thrown.e));
    }
  }

  /** The transaction of `OrderFacade.order`, with the id the database gives. */
  method PlaceOrder(db: Database, info: OrderInfo, fault: Fault) returns (thrown: Thrown)
    modifies db
    ensures var r := Attempt(PlaceHit(old(db.Tables()), info, fault), PlaceTx(old(db.Tables()), info));
            && thrown.Nothing? == r.Ok?
            && db.Tables() == if r.Ok? then r.value else old(db.Tables())
    ensures Key(info.id, OrderCreated) !in old(db.outbox) ==>
              (thrown.Nothing? <==>
                && !PlaceHit(old(db.Tables()), info, fault) && |info.items| >= 1
                && forall i, j | 0 <= i < |info.items| && 0 <= j < |info.items| && i != j ::
                     info.items[i].productId != info.items[j].productId)
  {
    if Key(info.id, OrderCreated) !in db.outbox { PlacedExactly(db.Tables(), info); }
    var saved := db.Tables();
    thrown := Threw(Other);
    if fault != At(0) {
      db.orders := db.orders[info.id := Order(info.userId, PendingPayment)];
      if fault != At(1) && info.items != [] && Distinct(info.items) {
        db.items := db.items[info.id := info.items];
        thrown := db.CreateOutbox(info, OrderCreated, Init, fault != At(2));
      }
    }
    if thrown.Nothing? && fault == At(3) { thrown := Threw(Other); }
    if thrown.Threw? {
      db.Rollback(saved);
      thrown := Threw(Classified(thrown.e));
    }
  }

  // ------------------------------------------------------------- what the saga says of them

  function DeductSteps(db: Db, info: OrderInfo, fault: bool, ok: bool): seq<Step> {
    var r := Attempt(fault, DeductTx(db, info));
    [ConsumeCreated(info, fault)] + if r.Ok? then [] else [Recover(DeductRecovery(info, r), ok)]
  }

  function PaymentSteps(db: Db, info: OrderInfo, fault: bool, ok: bool): seq<Step> {
    var r := Attempt(fault, PaymentTx(db, info));
    [ConsumeDeductStock(info, fault)] + if r.Ok? then [] else [Recover(FailPayment(info), ok)]
  }

  /** A recovery owed and made is the handler's write after its rollback. */
  lemma RecoveryIsMade(s: State, r: Recovery, ok: bool)
    ensures r in Owe(s, r).recoveries
    ensures RecoverOnce(Owe(s, r), r, ok).db == Recovered(s.db, r, ok)
    ensures RecoverOnce(Owe(s, r), r, ok).recoveries == s.recoveries
  {
    assert s.recoveries + multiset{r} - multiset{r} == s.recoveries;
  }

  /** One call of the `order.created` handler is a run of the saga: its transaction, and the
      recovery that owes if it failed. */
  lemma DeductHandlerIsARun(s: State, info: OrderInfo, fault: bool, ok: bool)
    requires Message(OrderCreated, info) in s.topics
    ensures var steps := DeductSteps(s.db, info, fault, ok);
            var r := Attempt(fault, DeductTx(s.db, info));
            && Legal(s, steps)
            && Exec(s, steps).db == Handled(s.db, r, DeductRecovery(info, r), ok)
            && Exec(s, steps).recoveries == s.recoveries
  {
    var r := Attempt(fault, DeductTx(s.db, info));
    var step := ConsumeCreated(info, fault);
    if r.Ok? {
      GoesOnce(s, step);
    } else {
      var owed := DeductRecovery(info, r);
      DeductionOwes(s, info, fault);
      RecoveryIsMade(s, owed, ok);
      GoesTwice(s, step, Owe(s, owed), Recover(owed, ok));
      assert [step] + [Recover(owed, ok)] == [step, Recover(owed, ok)];
    }
  }

  lemma DeductionOwes(s: State, info: OrderInfo, fault: bool)
    requires Attempt(fault, DeductTx(s.db, info)).Err?
    ensures Saga.DeductStock(s, info, fault) == Owe(s, DeductRecovery(info, Attempt(fault, DeductTx(s.db, info))))
  {
  }

  /** And so is one of the `order.deduct_stock` handler. */
  lemma PaymentHandlerIsARun(s: State, info: OrderInfo, fault: bool, ok: bool)
    requires Message(OrderDeductStock, info) in s.topics
    ensures var steps := PaymentSteps(s.db, info, fault, ok);
            var r := Attempt(fault, PaymentTx(s.db, info));
            && Legal(s, steps)
            && Exec(s, steps).db == Handled(s.db, r, FailPayment(info), ok)
            && Exec(s, steps).recoveries == s.recoveries
  {
    var r := Attempt(fault, PaymentTx(s.db, info));
    var step := ConsumeDeductStock(info, fault);
    if r.Ok? {
      GoesOnce(s, step);
    } else {
      assert Apply(s, step) == Owe(s, FailPayment(info));
      RecoveryIsMade(s, FailPayment(info), ok);
      GoesTwice(s, step, Owe(s, FailPayment(info)), Recover(FailPayment(info), ok));
      assert [step] + [Recover(FailPayment(info), ok)] == [step, Recover(FailPayment(info), ok)];
    }
  }
}
