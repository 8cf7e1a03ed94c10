/** Where the stock and the money are after any run of the saga. */
module Accounting {
  import opened Domain
  import opened Saga
  import opened SagaInvariant

  // ------------------------------------------------------------------ sums over orders

  function Sum(book: seq<OrderInfo>, f: OrderInfo -> int): int {
    if book == [] then 0 else Sum(book[..|book| - 1], f) + f(book[|book| - 1])
  }

  lemma {:induction false} SumSame(book: seq<OrderInfo>, f: OrderInfo -> int, g: OrderInfo -> int)
    requires forall i | 0 <= i < |book| :: f(book[i]) == g(book[i])
    ensures Sum(book, f) == Sum(book, g)
  {
    if book != [] { SumSame(book[..|book| - 1], f, g); }
  }

  /** Two summands that differ for one order only. */
  lemma {:induction false} SumBump(book: seq<OrderInfo>, i: nat, f: OrderInfo -> int, g: OrderInfo -> int)
    requires i < |book| && forall j | 0 <= j < |book| && j != i :: f(book[j]) == g(book[j])
    ensures Sum(book, g) == Sum(book, f) + g(book[i]) - f(book[i])
  {
    var front := book[..|book| - 1];
    if i == |book| - 1 { SumSame(front, f, g); } else { SumBump(front, i, f, g); }
  }

  lemma SumAppend(book: seq<OrderInfo>, o: OrderInfo, f: OrderInfo -> int)
    ensures Sum(book + [o], f) == Sum(book, f) + f(o)
  {
    assert (book + [o])[..|book|] == book;
  }

  lemma {:induction false} SumPlus(book: seq<OrderInfo>, f: OrderInfo -> int, g: OrderInfo -> int, h: OrderInfo -> int)
    requires forall i | 0 <= i < |book| :: h(book[i]) == f(book[i]) + g(book[i])
    ensures Sum(book, h) == Sum(book, f) + Sum(book, g)
  {
    if book != [] { SumPlus(book[..|book| - 1], f, g, h); }
  }

  /** The order a message or a row speaks of is in the book. */
  lemma PlaceOf(s: State, info: OrderInfo) returns (i: nat)
    requires BookInv(s) && Known(s.db, info)
    ensures i < |s.book| && s.book[i] == info && Placed(s.db, info)
    ensures forall j | 0 <= j < |s.book| && j != i :: s.book[j].id != info.id
  {
    assert InBook(s.book, info.id);
    i :| 0 <= i < |s.book| && s.book[i].id == info.id;
    assert Placed(s.db, s.book[i]);
  }

  // ------------------------------------------------------------------------------ stock

  /** Deductions less restores, restore by restore. */
  function Net(log: multiset<Entry>, id: nat): int {
    log[StockDeducted(id)] as int - log[StockRestored(id)] as int
  }

  /** Units of `p` an order holds. */
  function Held(log: multiset<Entry>, p: nat): OrderInfo -> int {
    (o: OrderInfo) => Net(log, o.id) * LastQty(o.items, p)
  }

  predicate Conserved(before: Db, s: State, p: nat) {
    p in s.db.stock ==>
      && p in before.stock
      && s.db.stock[p] >= 0
      && s.db.stock[p] == before.stock[p] - Sum(s.book, Held(s.log, p))
  }

  lemma SameStock(before: Db, s: State, s': State, p: nat)
    requires Conserved(before, s, p) && s'.db.stock == s.db.stock && s'.book == s.book
    requires forall id: nat :: Net(s'.log, id) == Net(s.log, id)
    ensures Conserved(before, s', p)
  {
    SumSame(s.book, Held(s.log, p), Held(s'.log, p));
  }

  /** An order placed now holds nothing. */
  lemma HoldsNothing(s: State, info: OrderInfo, p: nat)
    requires EffectInv(s, info.id) && ChainInv(s.db, info.id) && info.id !in s.db.orders
    ensures Held(s.log, p)(info) == 0
  {
    assert Net(s.log, info.id) == 0;
  }

  lemma PlaceConserves(before: Db, s: State, info: OrderInfo, p: nat)
    requires EffectInv(s, info.id) && ChainInv(s.db, info.id) && Orderable(s, info) && Conserved(before, s, p)
    ensures Conserved(before, Place(s, info), p)
  {
    var s' := Place(s, info);
    if PlaceTx(s.db, info).Ok? {
      HoldsNothing(s, info, p);
      SumAppend(s.book, info, Held(s.log, p));
      assert s'.db.stock == s.db.stock && s'.log == s.log && s'.book == s.book + [info];
    }
  }

  /** One order's holding changes by `n` times its quantity, and the stock the other way. */
  lemma Transfer(before: Db, s: State, s': State, i: nat, n: int, p: nat)
    requires Conserved(before, s, p) && s'.book == s.book && s'.db.stock.Keys == s.db.stock.Keys
    requires i < |s.book| && DistinctIds(s.book)
    requires forall id: nat | id != s.book[i].id :: Net(s'.log, id) == Net(s.log, id)
    requires Net(s'.log, s.book[i].id) == Net(s.log, s.book[i].id) + n
    requires p in s.db.stock ==> 0 <= s'.db.stock[p] == s.db.stock[p] - n * LastQty(s.book[i].items, p)
    ensures Conserved(before, s', p)
  {
    var o := s.book[i];
    forall j | 0 <= j < |s.book| && j != i ensures Held(s'.log, p)(s.book[j]) == Held(s.log, p)(s.book[j]) {
      assert s.book[j].id != o.id;
    }
    SumBump(s.book, i, Held(s.log, p), Held(s'.log, p));
    Distribute(Net(s.log, o.id), n, LastQty(o.items, p));
    assert Held(s'.log, p)(o) == Held(s.log, p)(o) + n * LastQty(o.items, p);
  }

  lemma Distribute(a: int, b: int, q: int)
    ensures (a + b) * q == a * q + b * q
  {}

  lemma DeductedAt(stock: map<nat, int>, items: seq<Item>, p: nat)
    requires Deducted(stock, items).Ok? && p in stock && stock[p] >= 0
    ensures 0 <= Deducted(stock, items).value[p] == stock[p] - LastQty(items, p)
  {
    if !Ordered(items, p) { NotOrdered(items, p); }
  }

  /** A committed deduction takes the units of one order, and the row was large enough. */
  lemma DeductionConserves(before: Db, s: State, info: OrderInfo, fault: bool, p: nat)
    requires BookInv(s) && Known(s.db, info) && Conserved(before, s, p)
    ensures Conserved(before, DeductStock(s, info, fault), p)
  {
    var s' := DeductStock(s, info, fault);
    DeductionWrites(s, info, fault);
    if !fault && DeductTx(s.db, info).Ok? {
      var i := PlaceOf(s, info);
      var stock := Deducted(s.db.stock, info.items).value;
      assert s'.db.stock == stock;
      if p in s.db.stock { DeductedAt(s.db.stock, info.items, p); }
      Transfer(before, s, s', i, 1, p);
    } else {
      SameStock(before, s, s', p);
    }
  }

  /** A committed restore gives them back. */
  lemma CompensationConserves(before: Db, s: State, t: TaskId, committed: bool, p: nat)
    requires BookInv(s) && InStage(s, t, Compensating) && t.key in s.db.outbox && RowInv(s.db, t.key)
    requires Conserved(before, s, p)
    ensures Conserved(before, CompensateOnce(s, t, committed), p)
  {
    var s' := CompensateOnce(s, t, committed);
    var info := s.db.outbox[t.key].payload;
    if t.key.event.OrderPayment? && committed && info.items != [] {
      var i := PlaceOf(s, info);
      DistinctQty(info.items, p);
      CompensationWrites(s, t, committed);
      Transfer(before, s, s', i, -1, p);
    } else {
      assert s'.db.stock == s.db.stock && s'.log == s.log && s'.book == s.book;
      SameStock(before, s, s', p);
    }
  }

  /** The effects of a committed restore. */
  lemma CompensationWrites(s: State, t: TaskId, committed: bool)
    requires InStage(s, t, Compensating) && t.key in s.db.outbox
    requires t.key.event.OrderPayment? && committed && s.db.outbox[t.key].payload.items != []
    ensures var info := s.db.outbox[t.key].payload;
            var s' := CompensateOnce(s, t, committed);
            && s'.log == s.log + multiset{StockRestored(info.id), RestoredBy(t)}
            && s'.book == s.book && s'.db.stock.Keys == s.db.stock.Keys
            && forall p | p in s.db.stock :: s'.db.stock[p] == s.db.stock[p] + FirstQty(info.items, p)
  {}

  lemma StepConserves(before: Db, s: State, step: Step, p: nat)
    requires Inv(s) && BookInv(s) && Enabled(s, step) && Conserved(before, s, p)
    ensures Conserved(before, Apply(s, step), p)
  {
    match step
    case PlaceOrder(info) => PlaceConserves(before, s, info, p);
    case OpenWallet(userId) => WalletsConserve(before, s, Apply(s, step), p);
    case ChargePoint(userId, amount) => WalletsConserve(before, s, Apply(s, step), p);
    case PollInit(poller, keys) => ReadingConserves(before, s, poller, keys, Publishing, p);
    case Publish(t, sent, acked) => PublishConserves(before, s, t, sent, acked, p);
    case MarkPublished(t, ok) => MarksConserve(before, s, t, ok, Success, p);
    case PollFail(poller, keys) => ReadingConserves(before, s, poller, keys, Compensating, p);
    case Compensate(t, committed) =>
      assert RowInv(s.db, t.key);
      CompensationConserves(before, s, t, committed, p);
    case MarkCompensated(t, ok) => MarksConserve(before, s, t, ok, Success, p);
    case GiveUp(t, ok) => MarksConserve(before, s, t, ok, Fail, p);
    case Abandon(t) => SameStock(before, s, Done(s, t), p);
    case ConsumeCreated(info, fault) =>
      Delivered(s, OrderCreated, info);
      DeductionConserves(before, s, info, fault, p);
    case ConsumeDeductStock(info, fault) =>
      PaymentConserves(before, s, info, fault, p);
    case ConsumePayment(info, fault) => SuccessConserves(before, s, info, fault, p);
    case Recover(r, ok) => RecoveryConserves(before, s, r, ok, p);
  }

  lemma WalletsConserve(before: Db, s: State, s': State, p: nat)
    requires Conserved(before, s, p) && s' == s.(db := s.db.(wallets := s'.db.wallets, points := s'.db.points))
    ensures Conserved(before, s', p)
  {
    SameStock(before, s, s', p);
  }

  lemma PaymentConserves(before: Db, s: State, info: OrderInfo, fault: bool, p: nat)
    requires Conserved(before, s, p)
    ensures Conserved(before, Pay(s, info, fault), p)
  {
    PaymentWrites(s, info, fault);
    SameStock(before, s, Pay(s, info, fault), p);
  }

  lemma ReadingConserves(before: Db, s: State, poller: nat, keys: set<Key>, stage: Stage, p: nat)
    requires Conserved(before, s, p)
    ensures Conserved(before, WithTasks(s, poller, keys, stage), p)
  {
    SameStock(before, s, WithTasks(s, poller, keys, stage), p);
  }

  lemma PublishConserves(before: Db, s: State, t: TaskId, sent: bool, acked: bool, p: nat)
    requires Conserved(before, s, p) && InStage(s, t, Publishing) && t.key in s.db.outbox
    ensures Conserved(before, PublishOnce(s, t, sent, acked), p)
  {
    SameStock(before, s, PublishOnce(s, t, sent, acked), p);
  }

  lemma MarksConserve(before: Db, s: State, t: TaskId, ok: bool, status: EventStatus, p: nat)
    requires Conserved(before, s, p) && t in s.tasks
    ensures Conserved(before, Done(WithDb(s, SetStatus(s.db, t.key, status)), t), p)
    ensures Conserved(before, Done(s, t), p)
    ensures Conserved(before, RetryCompensation(s, t), p)
  {
    SameStock(before, s, Done(WithDb(s, SetStatus(s.db, t.key, status)), t), p);
    SameStock(before, s, Done(s, t), p);
    SameStock(before, s, RetryCompensation(s, t), p);
  }

  lemma SuccessConserves(before: Db, s: State, info: OrderInfo, fault: bool, p: nat)
    requires Conserved(before, s, p)
    ensures Conserved(before, Succeed(s, info, fault), p)
  {
    SameStock(before, s, Succeed(s, info, fault), p);
  }

  lemma RecoveryConserves(before: Db, s: State, r: Recovery, ok: bool, p: nat)
    requires Conserved(before, s, p)
    ensures Conserved(before, RecoverOnce(s, r, ok), p)
  {
    SameStock(before, s, RecoverOnce(s, r, ok), p);
  }

  lemma {:induction false} RunConserves(before: Db, s: State, steps: seq<Step>, p: nat)
    requires Inv(s) && BookInv(s) && Legal(s, steps) && Conserved(before, s, p)
    ensures Conserved(before, Exec(s, steps), p)
    decreases |steps|
  {
    if steps != [] {
      StepInv(s, steps[0]);
      StepBookInv(s, steps[0]);
      StepConserves(before, s, steps[0], p);
      RunConserves(before, Apply(s, steps[0]), steps[1..], p);
    }
  }

  /** At every point of every run the stock of a product is never negative, and what is gone
      from it is what the orders hold: one deduction at most, less every single restore. */
  lemma StockConservation(s: State, steps: seq<Step>, p: nat)
    requires Initial(s) && Legal(s, steps) && p in Exec(s, steps).db.stock
    ensures p in s.db.stock
    ensures Exec(s, steps).db.stock[p] >= 0
    ensures Exec(s, steps).db.stock[p] == s.db.stock[p] - Sum(Exec(s, steps).book, Held(Exec(s, steps).log, p))
  {
    InitialInv(s);
    RunConserves(s.db, s, steps, p);
  }
}
