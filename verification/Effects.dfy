/** What the transactions come to for a caller, said of quantities, prices and balances rather than
    of the functions that compute them. */
module Effects {
  import opened Domain

  // ------------------------------------------------------------------- what an order costs

  lemma AmountOfOne(i: Item)
    ensures Amount([]) == 0 && Amount([i]) == i.price * i.quantity
  {
    assert [i][..0] == [];
  }

  lemma {:induction false} AmountAdds(a: seq<Item>, b: seq<Item>)
    ensures Amount(a + b) == Amount(a) + Amount(b)
  {
    if b == [] {
      assert a + b == a;
    } else {
      assert (a + b)[..|a + b| - 1] == a + b[..|b| - 1];
      AmountAdds(a, b[..|b| - 1]);
    }
  }

  /** One more unit of an item costs its price more. */
  lemma OneUnitMore(items: seq<Item>, i: nat)
    requires i < |items|
    ensures Amount(items[i := items[i].(quantity := items[i].quantity + 1)]) == Amount(items) + items[i].price
  {
    var one, more := items[i], items[i].(quantity := items[i].quantity + 1);
    assert items == items[..i] + ([one] + items[i + 1..]);
    assert items[i := more] == items[..i] + ([more] + items[i + 1..]);
    AmountAdds(items[..i], [one] + items[i + 1..]);
    AmountAdds([one], items[i + 1..]);
    AmountAdds(items[..i], [more] + items[i + 1..]);
    AmountAdds([more], items[i + 1..]);
    AmountOfOne(one);
    AmountOfOne(more);
    Distribute(one.price, one.quantity);
  }

  /** Price times quantity, item by item. */
  function Cost(items: seq<Item>): nat {
    if items == [] then 0 else items[0].price * items[0].quantity + Cost(items[1..])
  }

  lemma {:induction false} AmountIsCost(items: seq<Item>)
    ensures Amount(items) == Cost(items)
  {
    if items != [] {
      assert items == [items[0]] + items[1..];
      AmountAdds([items[0]], items[1..]);
      AmountOfOne(items[0]);
      AmountIsCost(items[1..]);
    }
  }

  lemma Distribute(price: nat, quantity: nat)
    ensures price * (quantity + 1) == price * quantity + price
  {
  }

  // ---------------------------------------------------------------------------- the wallet

  /** A charge goes through exactly if there is a wallet, credits exactly the amount and enters
      exactly one row for it. */
  lemma ChargeCredits(db: Db, u: nat, a: nat)
    ensures ChargeTx(db, u, a).Ok? <==> u in db.wallets
    ensures u in db.wallets ==>
              var after := ChargeTx(db, u, a).value;
              && u in after.wallets
              && after.wallets[u].totalPoint == db.wallets[u].totalPoint + a
              && after.wallets[u].version == db.wallets[u].version + 1
              && after == db.(wallets := db.wallets[u := after.wallets[u]],
                              points := db.points + [Point(u, a, Charge)])
  {
  }

  /** After a charge of `a` a payment of `b` goes through exactly if what was there and `a` cover
      it, and what is left is what they leave: a balance that is just enough is enough. */
  lemma ChargeThenPay(db: Db, u: nat, a: nat, b: nat)
    requires u in db.wallets
    ensures var charged := ChargeTx(db, u, a);
            && charged.Ok?
            && (PayFor(charged.value, u, b).Ok? <==> b <= db.wallets[u].totalPoint + a)
            && (PayFor(charged.value, u, b).Err? ==> PayFor(charged.value, u, b).error == InsufficientPoint)
            && (b <= db.wallets[u].totalPoint + a ==>
                  var paid := PayFor(charged.value, u, b).value;
                  && paid.wallets == db.wallets[u := Wallet(db.wallets[u].totalPoint + a - b,
                                                            db.wallets[u].version + 2)]
                  && paid.points == db.points + [Point(u, a, Charge), Point(u, -(b as int), Use)])
  {
    assert db.points + [Point(u, a, Charge)] + [Point(u, -(b as int), Use)]
           == db.points + [Point(u, a, Charge), Point(u, -(b as int), Use)];
  }

  /** A payment and a charge of as much leave the balance, two versions on and two rows behind. */
  lemma PayThenCharge(db: Db, u: nat, b: nat)
    requires PayFor(db, u, b).Ok?
    ensures u in db.wallets && ChargeTx(PayFor(db, u, b).value, u, b).Ok?
    ensures var back := ChargeTx(PayFor(db, u, b).value, u, b).value;
            back.wallets == db.wallets[u := db.wallets[u].(version := db.wallets[u].version + 2)]
  {
  }

  // ------------------------------------------------------------------------------- placing

  /** An order whose key is free is placed exactly if it has an item and no product twice; placed,
      it is pending, has its items and waits to be published. */
  lemma PlacedExactly(db: Db, info: OrderInfo)
    requires Key(info.id, OrderCreated) !in db.outbox
    ensures PlaceTx(db, info).Ok? <==>
            && |info.items| >= 1
            && forall i, j | 0 <= i < |info.items| && 0 <= j < |info.items| && i != j ::
                 info.items[i].productId != info.items[j].productId
    ensures PlaceTx(db, info).Ok? ==>
              var after := PlaceTx(db, info).value;
              && after.orders == db.orders[info.id := Order(info.userId, PendingPayment)]
              && after.items == db.items[info.id := info.items]
              && after.outbox == db.outbox[Key(info.id, OrderCreated) := Row(info, Init, Init)]
              && after == db.(orders := after.orders, items := after.items, outbox := after.outbox)
  {
    if !Distinct(info.items) {
      var i, j :| 0 <= i < j < |info.items| && info.items[i].productId == info.items[j].productId;
    }
  }

  /** Two orders of different ids can be placed in either order, and it makes no difference. */
  lemma PlacingCommutes(db: Db, a: OrderInfo, b: OrderInfo)
    requires a.id != b.id && PlaceTx(db, a).Ok? && PlaceTx(db, b).Ok?
    ensures PlaceTx(PlaceTx(db, a).value, b).Ok?
    ensures PlaceTx(PlaceTx(db, a).value, b) == PlaceTx(PlaceTx(db, b).value, a)
  {
    var (ka, kb) := (Key(a.id, OrderCreated), Key(b.id, OrderCreated));
    var (ra, rb) := (Row(a, Init, Init), Row(b, Init, Init));
    assert db.outbox[ka := ra][kb := rb] == db.outbox[kb := rb][ka := ra];
    var (oa, ob) := (Order(a.userId, PendingPayment), Order(b.userId, PendingPayment));
    assert db.orders[a.id := oa][b.id := ob] == db.orders[b.id := ob][a.id := oa];
    assert db.items[a.id := a.items][b.id := b.items] == db.items[b.id := b.items][a.id := a.items];
  }

  // -------------------------------------------------------------------------------- stages

  /** An order is deducted exactly if it has an item, every stocked product covers its quantity and
      its row is not there; then every product falls by exactly its quantity. */
  lemma DeductedExactly(db: Db, info: OrderInfo)
    requires info.items != [] && Distinct(info.items)
    ensures DeductTx(db, info).Ok? <==>
            && Key(info.id, OrderDeductStock) !in db.outbox
            && forall i | 0 <= i < |info.items| && info.items[i].productId in db.stock ::
                 db.stock[info.items[i].productId] >= info.items[i].quantity
    ensures DeductTx(db, info).Ok? ==>
              var after := DeductTx(db, info).value;
              && after.stock.Keys == db.stock.Keys
              && (forall i | 0 <= i < |info.items| && info.items[i].productId in db.stock ::
                    after.stock[info.items[i].productId] == db.stock[info.items[i].productId] - info.items[i].quantity)
              && (forall p | p in db.stock && !Ordered(info.items, p) :: after.stock[p] == db.stock[p])
  {
    DeductionIsAllOrNothing(db.stock, info.items);
    forall i | 0 <= i < |info.items|
      ensures TotalQty(info.items, info.items[i].productId) == info.items[i].quantity
    {
      TotalQtyIs(info.items, i);
    }
    forall p | p in db.stock && !Ordered(info.items, p) ensures TotalQty(info.items, p) == 0 {
      NotOrdered(info.items, p);
    }
  }

  /** An order is paid exactly if its user's balance covers what its items cost and its row is not
      there; the balance falls by exactly that. */
  lemma PaidExactly(db: Db, info: OrderInfo)
    ensures PaymentTx(db, info).Ok? <==>
            && Key(info.id, OrderPayment) !in db.outbox && info.userId in db.wallets
            && db.wallets[info.userId].totalPoint >= Cost(info.items)
    ensures PaymentTx(db, info).Ok? ==>
              PaymentTx(db, info).value.wallets[info.userId].totalPoint
              == db.wallets[info.userId].totalPoint - Cost(info.items)
  {
    AmountIsCost(info.items);
  }
}
