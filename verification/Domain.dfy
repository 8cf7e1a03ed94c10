/** The rows the order service keeps, and what each of its database transactions does to
    them. A transaction is a function on the whole set of tables: it answers the tables it
    commits, or the error after which everything is rolled back. */
module Domain {

  /** The application errors the handlers tell apart; everything else is a `Conflict`. */
  datatype Error = OutOfStock | InsufficientPoint | WalletNotFound | OrderNotFound | Conflict

  datatype Result<+T> = Ok(value: T) | Err(error: Error) {
    predicate IsFailure() { Err? }
    function PropagateFailure<U>(): Result<U>
      requires Err?
    {
      Err(error)
    }
    function Extract(): T
      requires Ok?
    {
      value
    }
  }

  /** An ordered product. Prices are in hundredths of a point (`Decimal(65, 2)`). */
  datatype Item = Item(productId: nat, quantity: nat, price: nat)

  /** `CreateOrderInfo`: the order and its items, carried by every event of the order. */
  datatype OrderInfo = OrderInfo(id: nat, userId: nat, items: seq<Item>)

  datatype EventType = OrderCreated | OrderDeductStock | OrderPayment | OrderSuccess
  datatype EventStatus = Init | Success | Fail
  datatype OrderStatus = PendingPayment | Paid | Failed

  /** The unique key of the outbox: the aggregate (an order) and the event type. */
  datatype Key = Key(id: nat, event: EventType)

  /** `born` is history: the status the row was inserted with. No code reads it. */
  datatype Row = Row(payload: OrderInfo, status: EventStatus, born: EventStatus)

  datatype Order = Order(userId: nat, status: OrderStatus)
  datatype Wallet = Wallet(totalPoint: int, version: nat)
  datatype PointKind = Charge | Use
  datatype Point = Point(userId: nat, amount: int, kind: PointKind)

  datatype Db = Db(
    orders: map<nat, Order>,
    items: map<nat, seq<Item>>,
    stock: map<nat, int>,
    wallets: map<nat, Wallet>,
    points: seq<Point>,
    outbox: map<Key, Row>)

  // ---------------------------------------------------------------- items of an order

  predicate Ordered(items: seq<Item>, p: nat) {
    exists i | 0 <= i < |items| :: items[i].productId == p
  }

  /** The unique index on (order, product). */
  predicate Distinct(items: seq<Item>) {
    forall i, j | 0 <= i < j < |items| :: items[i].productId != items[j].productId
  }

  /** What `Object.fromEntries` keeps of a product: its last quantity; 0 if not ordered. */
  function LastQty(items: seq<Item>, p: nat): nat {
    if items == [] then 0
    else if items[|items| - 1].productId == p then items[|items| - 1].quantity
    else LastQty(items[..|items| - 1], p)
  }

  /** What `Array.find` returns for a product: its first quantity; 0 if not ordered. */
  function FirstQty(items: seq<Item>, p: nat): nat {
    if items == [] then 0
    else if items[0].productId == p then items[0].quantity
    else FirstQty(items[1..], p)
  }

  /** All units of a product in the order. */
  function TotalQty(items: seq<Item>, p: nat): nat {
    if items == [] then 0
    else (if items[0].productId == p then items[0].quantity else 0) + TotalQty(items[1..], p)
  }

  function Amount(items: seq<Item>): nat {
    if items == [] then 0
    else Amount(items[..|items| - 1]) + items[|items| - 1].price * items[|items| - 1].quantity
  }

  // ------------------------------------------------------------------- stock arithmetic

  predicate Short(stock: map<nat, int>, items: seq<Item>) {
    exists p | p in stock :: Ordered(items, p) && stock[p] < LastQty(items, p)
  }

  /** `deductStock`: all rows or none. A product without a stock row is passed over. An
      empty list of ids makes the locking query fail. */
  function Deducted(stock: map<nat, int>, items: seq<Item>): (r: Result<map<nat, int>>)
    ensures r.Ok? ==> r.value.Keys == stock.Keys
  {
    if items == [] then Err(Conflict)
    else if Short(stock, items) then Err(OutOfStock)
    else Ok(map p | p in stock :: stock[p] - LastQty(items, p))
  }

  /** The restore transaction of `executeCompensation`. */
  function Restored(stock: map<nat, int>, items: seq<Item>): (r: Result<map<nat, int>>)
    ensures r.Ok? ==> r.value.Keys == stock.Keys
  {
    if items == [] then Err(Conflict)
    else Ok(map p | p in stock :: stock[p] + FirstQty(items, p))
  }

  // --------------------------------------------------------------------- transactions

  /** Inserting an outbox row: refused by the unique key. */
  function CreateRow(db: Db, info: OrderInfo, event: EventType, status: EventStatus): Result<Db> {
    var key := Key(info.id, event);
    if key in db.outbox then Err(Conflict)
    else Ok(db.(outbox := db.outbox[key := Row(info, status, status)]))
  }

  /** `updateByAggregateIdAndEventType`: sets the status of an existing row. */
  function SetStatus(db: Db, key: Key, status: EventStatus): Result<Db> {
    if key !in db.outbox then Err(Conflict)
    else Ok(db.(outbox := db.outbox[key := db.outbox[key].(status := status)]))
  }

  function SetOrderStatus(db: Db, id: nat, status: OrderStatus): Result<Db> {
    if id !in db.orders then Err(OrderNotFound)
    else Ok(db.(orders := db.orders[id := db.orders[id].(status := status)]))
  }

  /** The transaction of `order`: the order, its items and the `order.created` row. The
      unique index on (order, product) refuses a product listed twice. */
  function PlaceTx(db: Db, info: OrderInfo): Result<Db> {
    if info.items == [] || !Distinct(info.items) then Err(Conflict)
    else
      CreateRow(db.(orders := db.orders[info.id := Order(info.userId, PendingPayment)],
                    items := db.items[info.id := info.items]),
                info, OrderCreated, Init)
  }

  /** The transaction of `processOrderDeductStock`. */
  function DeductTx(db: Db, info: OrderInfo): Result<Db> {
    var stock :- Deducted(db.stock, info.items);
    CreateRow(db.(stock := stock), info, OrderDeductStock, Init)
  }

  /** `completePayment`: the ledger row and the versioned balance. */
  function PayFor(db: Db, userId: nat, amount: nat): Result<Db> {
    if userId !in db.wallets then Err(WalletNotFound)
    else
      var w := db.wallets[userId];
      if w.totalPoint < amount then Err(InsufficientPoint)
      else Ok(db.(points := db.points + [Point(userId, -(amount as int), Use)],
                  wallets := db.wallets[userId := Wallet(w.totalPoint - amount, w.version + 1)]))
  }

  /** The transaction of `processOrderPayment`. */
  function PaymentTx(db: Db, info: OrderInfo): Result<Db> {
    var paid :- PayFor(db, info.userId, Amount(info.items));
    CreateRow(paid, info, OrderPayment, Init)
  }

  /** The transaction of `processOrderSuccess`. */
  function SuccessTx(db: Db, info: OrderInfo): Result<Db> {
    var paid :- SetOrderStatus(db, info.id, Paid);
    CreateRow(paid, info, OrderSuccess, Init)
  }

  /** The transaction of `chargePoint`. */
  function ChargeTx(db: Db, userId: nat, amount: nat): Result<Db> {
    if userId !in db.wallets then Err(WalletNotFound)
    else
      var w := db.wallets[userId];
      Ok(db.(wallets := db.wallets[userId := Wallet(w.totalPoint + amount, w.version + 1)],
             points := db.points + [Point(userId, amount, Charge)]))
  }

  function RestoreTx(db: Db, info: OrderInfo): Result<Db> {
    var stock :- Restored(db.stock, info.items);
    Ok(db.(stock := stock))
  }

  // ------------------------------------------------------------------ about the items

  lemma {:induction false} LastQtyIs(items: seq<Item>, i: nat)
    requires i < |items| && forall j | i < j < |items| :: items[j].productId != items[i].productId
    ensures LastQty(items, items[i].productId) == items[i].quantity
  {
    if i < |items| - 1 { LastQtyIs(items[..|items| - 1], i); }
  }

  lemma {:induction false} FirstQtyIs(items: seq<Item>, i: nat)
    requires i < |items| && forall j | 0 <= j < i :: items[j].productId != items[i].productId
    ensures FirstQty(items, items[i].productId) == items[i].quantity
  {
    if i > 0 { FirstQtyIs(items[1..], i - 1); }
  }

  lemma {:induction false} NotOrdered(items: seq<Item>, p: nat)
    requires !Ordered(items, p)
    ensures LastQty(items, p) == FirstQty(items, p) == TotalQty(items, p) == 0
  {
    if items != [] {
      var front, back := items[..|items| - 1], items[1..];
      assert forall i | 0 <= i < |front| :: front[i] == items[i];
      assert forall i | 0 <= i < |back| :: back[i] == items[i + 1];
      NotOrdered(front, p);
      NotOrdered(back, p);
    }
  }

  /** With a product listed once, all three readings of its quantity agree. */
  lemma {:induction false} DistinctQty(items: seq<Item>, p: nat)
    requires Distinct(items)
    ensures LastQty(items, p) == FirstQty(items, p) == TotalQty(items, p)
  {
    if !Ordered(items, p) {
      NotOrdered(items, p);
    } else {
      var i :| 0 <= i < |items| && items[i].productId == p;
      LastQtyIs(items, i);
      FirstQtyIs(items, i);
      TotalQtyIs(items, i);
    }
  }

  lemma {:induction false} TotalQtyIs(items: seq<Item>, i: nat)
    requires Distinct(items) && i < |items|
    ensures TotalQty(items, items[i].productId) == items[i].quantity
  {
    if i == 0 {
      assert !Ordered(items[1..], items[0].productId);
      NotOrdered(items[1..], items[0].productId);
    } else {
      TotalQtyIs(items[1..], i - 1);
    }
  }

  /** Deducting is all-or-nothing: every stocked product falls by exactly its units, or
      some ordered product has too little and nothing changes. */
  lemma DeductionIsAllOrNothing(stock: map<nat, int>, items: seq<Item>)
    requires items != [] && Distinct(items)
    ensures Deducted(stock, items).Err? <==>
            exists i | 0 <= i < |items| :: items[i].productId in stock && stock[items[i].productId] < items[i].quantity
    ensures Deducted(stock, items).Ok? ==>
              && Deducted(stock, items).value.Keys == stock.Keys
              && (forall p | p in stock :: Deducted(stock, items).value[p] == stock[p] - TotalQty(items, p))
              && ((forall p | p in stock :: stock[p] >= 0) ==>
                    forall p | p in stock :: Deducted(stock, items).value[p] >= 0)
  {
    forall i | 0 <= i < |items| ensures LastQty(items, items[i].productId) == items[i].quantity {
      LastQtyIs(items, i);
    }
    forall p | p in stock
      ensures LastQty(items, p) == TotalQty(items, p) && (!Ordered(items, p) ==> LastQty(items, p) == 0)
    {
      DistinctQty(items, p);
      if !Ordered(items, p) { NotOrdered(items, p); }
    }
    if Deducted(stock, items).Err? {
      var p :| p in stock && Ordered(items, p) && stock[p] < LastQty(items, p);
      var i :| 0 <= i < |items| && items[i].productId == p;
    }
    if i :| 0 <= i < |items| && items[i].productId in stock && stock[items[i].productId] < items[i].quantity {
      assert Ordered(items, items[i].productId);
    }
  }

  /** A restore undoes the deduction exactly when the first and the last quantity of every
      stocked product are the same, because deducting keeps the last one and restoring looks
      up the first one. */
  lemma RestoreUndoesDeduction(stock: map<nat, int>, items: seq<Item>)
    requires Deducted(stock, items).Ok?
    ensures Restored(Deducted(stock, items).value, items).Ok?
    ensures Restored(Deducted(stock, items).value, items).value == stock <==>
            forall p | p in stock :: FirstQty(items, p) == LastQty(items, p)
  {
    var back := Restored(Deducted(stock, items).value, items).value;
    assert back.Keys == stock.Keys;
    forall p | p in stock ensures back[p] == stock[p] - LastQty(items, p) + FirstQty(items, p) {}
    if back == stock {
      forall p | p in stock ensures FirstQty(items, p) == LastQty(items, p) { assert back[p] == stock[p]; }
    }
  }

  /** Which order creation guarantees: the unique index keeps products distinct. */
  lemma PlacedOrdersCanBeRestored(db: Db, info: OrderInfo, stock: map<nat, int>)
    requires PlaceTx(db, info).Ok?
    ensures Deducted(stock, info.items).Ok? ==>
              Restored(Deducted(stock, info.items).value, info.items) == Ok(stock)
  {
    if Deducted(stock, info.items).Ok? {
      forall p | p in stock ensures FirstQty(info.items, p) == LastQty(info.items, p) {
        DistinctQty(info.items, p);
      }
      RestoreUndoesDeduction(stock, info.items);
    }
  }

  /** Without the index the two differ: one unit then two of the same product leaves the
      stock one short after a restore. */
  lemma RepeatedProductIsNotRestored()
    ensures var items := [Item(7, 1, 100), Item(7, 2, 100)];
            && Deducted(map[7 := 5], items) == Ok(map[7 := 3])
            && Restored(map[7 := 3], items) == Ok(map[7 := 4])
  {
    var items := [Item(7, 1, 100), Item(7, 2, 100)];
    LastQtyIs(items, 1);
    FirstQtyIs(items, 0);
    assert Deducted(map[7 := 5], items).Ok? && Deducted(map[7 := 5], items).value == map[7 := 3];
    assert Restored(map[7 := 3], items).Ok? && Restored(map[7 := 3], items).value == map[7 := 4];
  }
}
