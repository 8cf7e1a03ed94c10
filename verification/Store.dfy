/** The tables as objects that are updated in place: the models a transaction loads and changes,
    the repositories' statements, and the rollback. Every statement may fail without effect. */
module Store {
  import opened Domain

  datatype Code =
    | ProductOutOfStock | WalletInsufficientPoint | WalletMissing | OrderMissing
    | OrderFailed | PointChargeFailed | PaymentFailed | NoCode

  /** `Other` is any error that is no `ApplicationException`. */
  datatype Exception = AppConflict(code: Code) | AppNotFound(code: Code) | Other

  datatype Thrown = Nothing | Threw(e: Exception)

  /** How the transactions of `Domain` name an exception. */
  function ErrorOf(e: Exception): Error {
    match e
    case AppConflict(ProductOutOfStock) => OutOfStock
    case AppConflict(WalletInsufficientPoint) => InsufficientPoint
    case AppNotFound(WalletMissing) => WalletNotFound
    case AppNotFound(OrderMissing) => OrderNotFound
    case _ => Conflict
  }

  /** What `transaction` lets out: application exceptions as they are, anything else as a
      conflict without a code. */
  function Classified(e: Exception): Exception {
    if e.Other? then AppConflict(NoCode) else e
  }

  /** The statement of a transaction that fails, counted from 0. */
  datatype Fault = NoFault | At(statement: nat)

  class ProductStockModel {
    const productId: nat
    var stock: int

    constructor (productId: nat, stock: int)
      ensures this.productId == productId && this.stock == stock
    {
      this.productId, this.stock := productId, stock;
    }

    predicate InStock(quantity: nat)
      reads this
    {
      stock >= quantity
    }

    method Deduct(quantity: nat) returns (thrown: Thrown)
      modifies this
      ensures thrown == if old(stock) < quantity then Threw(AppConflict(ProductOutOfStock)) else Nothing
      ensures stock == if old(stock) < quantity then old(stock) else old(stock) - quantity
    {
      if InStock(quantity) {
        stock := stock - quantity;
        thrown := Nothing;
      } else {
        thrown := Threw(AppConflict(ProductOutOfStock));
      }
    }

    method Add(quantity: nat)
      modifies this
      ensures stock == old(stock) + quantity
    {
      stock := stock + quantity;
    }
  }

  class WalletModel {
    const userId: nat
    var totalPoint: int
    const version: nat

    constructor (userId: nat, totalPoint: int, version: nat)
      ensures this.userId == userId && this.totalPoint == totalPoint && this.version == version
    {
      this.userId, this.totalPoint, this.version := userId, totalPoint, version;
    }

    method Payable(amount: nat) returns (thrown: Thrown)
      ensures thrown == if totalPoint >= amount then Nothing else Threw(AppConflict(WalletInsufficientPoint))
    {
      thrown := if totalPoint >= amount then Nothing else Threw(AppConflict(WalletInsufficientPoint));
    }

    method Charge(amount: nat)
      modifies this
      ensures totalPoint == old(totalPoint) + amount
    {
      totalPoint := totalPoint + amount;
    }
  }

  /** The products named, as a set of ids. */
  function ProductIds(items: seq<Item>): (ids: set<nat>)
    ensures forall p :: p in ids <==> Ordered(items, p)
  {
    set i | 0 <= i < |items| :: items[i].productId
  }

  /** Locked rows as models: one object for each id that has a row. */
  ghost predicate Loaded(rows: seq<ProductStockModel>, table: map<nat, int>, ids: set<nat>) {
    && (forall i | 0 <= i < |rows| :: rows[i].productId in table && rows[i].productId in ids)
    && (forall i, j | 0 <= i < j < |rows| :: rows[i].productId != rows[j].productId)
    && (forall p | p in table && p in ids :: HasModel(rows, p))
  }

  predicate HasModel(rows: seq<ProductStockModel>, p: nat) {
    exists i | 0 <= i < |rows| :: rows[i].productId == p
  }

  class Database {
    var orders: map<nat, Order>
    var items: map<nat, seq<Item>>
    var stock: map<nat, int>
    var wallets: map<nat, Wallet>
    var points: seq<Point>
    var outbox: map<Key, Row>

    constructor (db: Db)
      ensures Tables() == db
    {
      orders, items, stock := db.orders, db.items, db.stock;
      wallets, points, outbox := db.wallets, db.points, db.outbox;
    }

    function Tables(): Db
      reads this
    {
      Db(orders, items, stock, wallets, points, outbox)
    }

    /** What a rolled back transaction leaves. */
    method Rollback(saved: Db)
      modifies this
      ensures Tables() == saved
    {
      orders, items, stock := saved.orders, saved.items, saved.stock;
      wallets, points, outbox := saved.wallets, saved.points, saved.outbox;
    }

    /** `findByIdsWithXLock`. The query cannot be written for no ids. */
    method FindByIdsWithXLock(ids: set<nat>, up: bool) returns (thrown: Thrown, rows: seq<ProductStockModel>)
      ensures thrown == if up && ids != {} then Nothing else Threw(AppConflict(OrderFailed))
      ensures fresh(rows) && (thrown.Nothing? ==> Loaded(rows, stock, ids))
      ensures forall i | 0 <= i < |rows| :: rows[i].productId in stock && rows[i].stock == stock[rows[i].productId]
    {
      rows := [];
      if !up || ids == {} { return Threw(AppConflict(OrderFailed)), rows; }
      var todo := set p | p in stock && p in ids;
      while todo != {}
        invariant fresh(rows)
        invariant forall p | p in todo :: p in stock && p in ids && !HasModel(rows, p)
        invariant forall i | 0 <= i < |rows| ::
            rows[i].productId in stock && rows[i].productId in ids && rows[i].stock == stock[rows[i].productId]
        invariant forall i, j | 0 <= i < j < |rows| :: rows[i].productId != rows[j].productId
        invariant forall p | p in stock && p in ids && p !in todo :: HasModel(rows, p)
      {
        var p :| p in todo;
        todo := todo - {p};
        var row := new ProductStockModel(p, stock[p]);
        ghost var before := rows;
        rows := rows + [row];
        MoreModels(before, row);
      }
      thrown := Nothing;
    }

    /** `updateBulk`: one absolute write for each model. Statement `first + i` writes the `i`th. */
    method UpdateBulk(rows: seq<ProductStockModel>, fault: Fault, first: nat) returns (thrown: Thrown)
      requires forall i, j | 0 <= i < j < |rows| :: rows[i].productId != rows[j].productId
      requires forall i | 0 <= i < |rows| :: rows[i].productId in stock
      modifies this`stock
      ensures thrown.Threw? <==> fault.At? && first <= fault.statement < first + |rows|
      ensures thrown.Threw? ==> thrown.e == AppConflict(OrderFailed)
      ensures thrown.Nothing? ==>
                && stock.Keys == old(stock).Keys
                && (forall i | 0 <= i < |rows| :: stock[rows[i].productId] == rows[i].stock)
                && (forall p | p in stock && !HasModel(rows, p) :: stock[p] == old(stock)[p])
    {
      var i := 0;
      while i < |rows|
        invariant 0 <= i <= |rows|
        invariant stock.Keys == old(stock).Keys
        invariant forall j | 0 <= j < i :: stock[rows[j].productId] == rows[j].stock
        invariant forall p | p in stock && !HasModel(rows, p) :: stock[p] == old(stock)[p]
        invariant fault.At? ==> !(first <= fault.statement < first + i)
      {
        if fault == At(first + i) { return Threw(AppConflict(OrderFailed)); }
        assert HasModel(rows, rows[i].productId);
        stock := stock[rows[i].productId := rows[i].stock];
        i := i + 1;
      }
      thrown := Nothing;
    }

    /** `getByUserId`: any failure reads as a missing wallet. */
    method GetWallet(userId: nat, up: bool) returns (thrown: Thrown, wallet: WalletModel?)
      ensures thrown == if up && userId in wallets then Nothing else Threw(AppNotFound(WalletMissing))
      ensures thrown.Nothing? ==>
                && wallet != null && fresh(wallet) && wallet.userId == userId
                && wallet.totalPoint == wallets[userId].totalPoint && wallet.version == wallets[userId].version
    {
      if up && userId in wallets {
        wallet := new WalletModel(userId, wallets[userId].totalPoint, wallets[userId].version);
        thrown := Nothing;
      } else {
        thrown, wallet := Threw(AppNotFound(WalletMissing)), null;
      }
    }

    /** `update` and `updatePoint`: sets the balance if the version is still the one read. */
    method UpdateWallet(userId: nat, totalPoint: int, version: nat, up: bool) returns (thrown: Thrown)
      modifies this`wallets
      ensures thrown == if up && userId in old(wallets) && old(wallets)[userId].version == version
                        then Nothing else Threw(AppConflict(PointChargeFailed))
      ensures wallets == if thrown.Nothing? then old(wallets)[userId := Wallet(totalPoint, version + 1)]
                         else old(wallets)
    {
      if up && userId in wallets && wallets[userId].version == version {
        wallets := wallets[userId := Wallet(totalPoint, version + 1)];
        thrown := Nothing;
      } else {
        thrown := Threw(AppConflict(PointChargeFailed));
      }
    }

    method CreatePoint(point: Point, up: bool) returns (thrown: Thrown)
      modifies this`points
      ensures thrown == if up then Nothing else Threw(Other)
      ensures points == if up then old(points) + [point] else old(points)
    {
      thrown := Threw(Other);
      if up {
        points := points + [point];
        thrown := Nothing;
      }
    }

    /** Inserts an outbox row, which the unique key may refuse. */
    method CreateOutbox(info: OrderInfo, event: EventType, status: EventStatus, up: bool) returns (thrown: Thrown)
      modifies this`outbox
      ensures thrown == if up && CreateRow(old(Tables()), info, event, status).Ok? then Nothing else Threw(Other)
      ensures Tables() == if thrown.Nothing? then CreateRow(old(Tables()), info, event, status).value else old(Tables())
    {
      var key := Key(info.id, event);
      if up && key !in outbox {
        outbox := outbox[key := Row(info, status, status)];
        thrown := Nothing;
      } else {
        thrown := Threw(Other);
      }
    }

    /** Sets the status of an outbox row, which must exist. */
    method UpdateByAggregateIdAndEventType(key: Key, status: EventStatus, up: bool) returns (thrown: Thrown)
      modifies this`outbox
      ensures thrown == if up && SetStatus(old(Tables()), key, status).Ok? then Nothing else Threw(Other)
      ensures Tables() == if thrown.Nothing? then SetStatus(old(Tables()), key, status).value else old(Tables())
    {
      if up && key in outbox {
        outbox := outbox[key := outbox[key].(status := status)];
        thrown := Nothing;
      } else {
        thrown := Threw(Other);
      }
    }

    method GetOrder(id: nat, up: bool) returns (thrown: Thrown)
      ensures thrown == if up && id in orders then Nothing else Threw(AppNotFound(OrderMissing))
    {
      thrown := if up && id in orders then Nothing else Threw(AppNotFound(OrderMissing));
    }

    method UpdateOrder(id: nat, status: OrderStatus, up: bool) returns (thrown: Thrown)
      modifies this`orders
      ensures thrown == if up && SetOrderStatus(old(Tables()), id, status).Ok? then Nothing else Threw(Other)
      ensures Tables() == if thrown.Nothing? then SetOrderStatus(old(Tables()), id, status).value else old(Tables())
    {
      if up && id in orders {
        orders := orders[id := orders[id].(status := status)];
        thrown := Nothing;
      } else {
        thrown := Threw(Other);
      }
    }
  }

  lemma MoreModels(rows: seq<ProductStockModel>, row: ProductStockModel)
    ensures forall p :: HasModel(rows + [row], p) <==> HasModel(rows, p) || row.productId == p
  {
    var more := rows + [row];
    forall p ensures HasModel(more, p) <==> HasModel(rows, p) || row.productId == p {
      if HasModel(rows, p) {
        var i :| 0 <= i < |rows| && rows[i].productId == p;
        assert more[i].productId == p;
      }
      assert more[|rows|] == row;
    }
  }

  /** The rows that are locked for some items. */
  function Locked(stocked: set<nat>, items: seq<Item>): set<nat> {
    set p | p in stocked && Ordered(items, p)
  }

  /** As many models are loaded as there are rows to lock. */
  lemma RowCount(rows: seq<ProductStockModel>, table: map<nat, int>, items: seq<Item>)
    requires Loaded(rows, table, ProductIds(items))
    ensures |rows| == |Locked(table.Keys, items)|
  {
    IdCount(rows);
    forall p ensures p in IdsOf(rows) <==> p in Locked(table.Keys, items) {
      if p in Locked(table.Keys, items) { assert HasModel(rows, p); }
    }
    assert IdsOf(rows) == Locked(table.Keys, items);
  }

  function IdsOf(rows: seq<ProductStockModel>): set<nat> {
    set i | 0 <= i < |rows| :: rows[i].productId
  }

  lemma {:induction false} IdCount(rows: seq<ProductStockModel>)
    requires forall i, j | 0 <= i < j < |rows| :: rows[i].productId != rows[j].productId
    ensures |IdsOf(rows)| == |rows|
  {
    if rows == [] {
      assert IdsOf(rows) == {};
    } else {
      var front, last := rows[..|rows| - 1], rows[|rows| - 1];
      IdCount(front);
      assert rows == front + [last];
      MoreIds(front, last);
    }
  }

  lemma MoreIds(front: seq<ProductStockModel>, last: ProductStockModel)
    ensures IdsOf(front + [last]) == IdsOf(front) + {last.productId}
  {
    var all := front + [last];
    forall p ensures p in IdsOf(all) <==> p in IdsOf(front) + {last.productId} {
      if p in IdsOf(front) {
        var i :| 0 <= i < |front| && front[i].productId == p;
        assert all[i].productId == p;
      }
      assert all[|front|] == last;
    }
  }
}
