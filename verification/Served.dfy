/** When everybody is served: a fault-free system whose stock covers all its orders, and whose users
    can each pay theirs, ends with every order PAID; and no order is ever paid that was not
    covered. */
module Served {
  import opened Domain
  import opened Effects
  import opened Saga
  import opened SagaInvariant
  import opened Accounting
  import opened Money
  import opened Completion
  import opened Drain

  function Wanted(p: nat): OrderInfo -> int {
    (o: OrderInfo) => TotalQty(o.items, p)
  }

  function Owed(u: nat): OrderInfo -> int {
    (o: OrderInfo) => if o.userId == u then Cost(o.items) else 0
  }

  /** The stock covers the units of all orders, and each wallet the price times quantity of its
      user's. */
  ghost predicate Covered(before: Db, book: seq<OrderInfo>) {
    && (forall p | p in before.stock :: Sum(book, Wanted(p)) <= before.stock[p])
    && (forall i | 0 <= i < |book| :: book[i].userId in before.wallets)
    && (forall u | u in before.wallets :: Sum(book, Owed(u)) <= before.wallets[u].totalPoint)
  }

  // ---------------------------------------------------------------------------------- sums

  lemma {:induction false} SumPrefix(part: seq<OrderInfo>, whole: seq<OrderInfo>, f: OrderInfo -> int)
    requires part <= whole && forall o :: f(o) >= 0
    ensures Sum(part, f) <= Sum(whole, f)
  {
    if part != whole {
      assert part <= whole[..|whole| - 1];
      SumPrefix(part, whole[..|whole| - 1], f);
    }
  }

  lemma CoveredPart(before: Db, part: seq<OrderInfo>, whole: seq<OrderInfo>)
    requires part <= whole && Covered(before, whole)
    ensures Covered(before, part)
  {
    forall p | p in before.stock ensures Sum(part, Wanted(p)) <= before.stock[p] {
      SumPrefix(part, whole, Wanted(p));
    }
    forall u | u in before.wallets ensures Sum(part, Owed(u)) <= before.wallets[u].totalPoint {
      SumPrefix(part, whole, Owed(u));
    }
    forall i | 0 <= i < |part| ensures part[i].userId in before.wallets {
      assert part[i] == whole[i];
    }
  }

  /** One order holds nothing yet, the others at most what they want. */
  lemma {:induction false} SumBelow(book: seq<OrderInfo>, i: nat, f: OrderInfo -> int, g: OrderInfo -> int)
    requires i < |book| && g(book[i]) == 0 && forall j | 0 <= j < |book| :: g(book[j]) <= f(book[j])
    ensures Sum(book, g) + f(book[i]) <= Sum(book, f)
  {
    var front := book[..|book| - 1];
    if i < |book| - 1 { SumBelow(front, i, f, g); } else { SumAtMost(front, f, g); }
  }

  // --------------------------------------------------------------------------- enough of all

  lemma AtMostOnce(n: int, q: nat)
    requires n <= 1
    ensures n * q <= q
  {
    if n < 0 { assert n * q <= 0; }
  }

  lemma HeldAtMost(s: State, o: OrderInfo, p: nat)
    requires EffectInv(s, o.id) && Distinct(o.items)
    ensures Held(s.log, p)(o) <= Wanted(p)(o)
    ensures !HasRow(s.db, o.id, OrderDeductStock) && s.log[StockRestored(o.id)] == 0 ==> Held(s.log, p)(o) == 0
  {
    DistinctQty(o.items, p);
    AtMostOnce(Net(s.log, o.id), LastQty(o.items, p));
  }

  /** What an order still wants is there. */
  lemma StockIsThere(before: Db, s: State, i: nat, p: nat)
    requires Inv(s) && BookInv(s) && Conserved(before, s, p) && Covered(before, s.book) && i < |s.book|
    requires !HasRow(s.db, s.book[i].id, OrderDeductStock) && p in s.db.stock
    ensures s.db.stock[p] >= TotalQty(s.book[i].items, p)
  {
    var info := s.book[i];
    assert EffectInv(s, info.id) && ChainInv(s.db, info.id) && Placed(s.db, info);
    forall j | 0 <= j < |s.book| ensures Held(s.log, p)(s.book[j]) <= Wanted(p)(s.book[j]) {
      assert EffectInv(s, s.book[j].id) && Placed(s.db, s.book[j]);
      HeldAtMost(s, s.book[j], p);
    }
    HeldAtMost(s, info, p);
    SumBelow(s.book, i, Wanted(p), Held(s.log, p));
  }

  lemma DeductionGoesThrough(before: Db, s: State, i: nat)
    requires Inv(s) && BookInv(s) && (forall p: nat :: Conserved(before, s, p)) && Covered(before, s.book)
    requires i < |s.book| && !HasRow(s.db, s.book[i].id, OrderDeductStock)
    ensures DeductTx(s.db, s.book[i]).Ok?
  {
    var info := s.book[i];
    assert Placed(s.db, info);
    forall j | 0 <= j < |info.items| && info.items[j].productId in s.db.stock
      ensures s.db.stock[info.items[j].productId] >= info.items[j].quantity
    {
      StockIsThere(before, s, i, info.items[j].productId);
      TotalQtyIs(info.items, j);
    }
    DeductedExactly(s.db, info);
  }

  lemma SpentAtMost(s: State, o: OrderInfo, u: nat)
    requires EffectInv(s, o.id)
    ensures Spent(s.log, Only(u))(o) <= Owed(u)(o)
    ensures !HasRow(s.db, o.id, OrderPayment) ==> Spent(s.log, Only(u))(o) == 0
  {
    AmountIsCost(o.items);
    AtMostOnce(s.log[PointsUsed(o.id)], Amount(o.items));
  }

  /** The user's money as the rows tell it. */
  ghost predicate Solvent(before: Db, s: State, u: nat) {
    && MoneyInv(before, s, u, Only(u))
    && ChargeSum(s.db.points, u) >= ChargeSum(before.points, u)
    && (u in before.wallets ==> u in s.db.wallets)
  }

  lemma PaymentGoesThrough(before: Db, s: State, i: nat)
    requires Inv(s) && BookInv(s) && Covered(before, s.book) && i < |s.book|
    requires Solvent(before, s, s.book[i].userId) && !HasRow(s.db, s.book[i].id, OrderPayment)
    ensures PaymentTx(s.db, s.book[i]).Ok?
  {
    var info := s.book[i];
    var u := info.userId;
    forall j | 0 <= j < |s.book| ensures Spent(s.log, Only(u))(s.book[j]) <= Owed(u)(s.book[j]) {
      assert EffectInv(s, s.book[j].id);
      SpentAtMost(s, s.book[j], u);
    }
    assert EffectInv(s, info.id);
    SpentAtMost(s, info, u);
    SumBelow(s.book, i, Owed(u), Spent(s.log, Only(u)));
    KindsAre(before.points, u);
    KindsAre(s.db.points, u);
    PaidExactly(s.db, info);
  }

  // -------------------------------------------------------------------------------- no failure

  predicate AllInit(db: Db) {
    forall k | k in db.outbox :: db.outbox[k].born.Init?
  }

  predicate NoFailure(s: State) {
    AllInit(s.db) && s.recoveries == multiset{}
  }

  lemma PublishFine(s: State, t: TaskId, sent: bool, acked: bool)
    requires InStage(s, t, Publishing) && t.key in s.db.outbox && NoFailure(s)
    ensures NoFailure(PublishOnce(s, t, sent, acked))
  {
  }

  lemma CompensateFine(s: State, t: TaskId, committed: bool)
    requires InStage(s, t, Compensating) && t.key in s.db.outbox && NoFailure(s)
    ensures NoFailure(CompensateOnce(s, t, committed))
  {
  }

  lemma MarkFine(s: State, t: TaskId, status: EventStatus)
    requires t in s.tasks && NoFailure(s)
    ensures NoFailure(Done(WithDb(s, SetStatus(s.db, t.key, status)), t))
    ensures NoFailure(RetryCompensation(s, t))
  {
  }

  lemma PlaceFine(s: State, info: OrderInfo)
    requires NoFailure(s)
    ensures NoFailure(Place(s, info))
  {
  }

  lemma DeductFine(s: State, info: OrderInfo)
    requires NoFailure(s) && DeductTx(s.db, info).Ok?
    ensures NoFailure(DeductStock(s, info, false))
  {
  }

  lemma PayFine(s: State, info: OrderInfo)
    requires NoFailure(s) && PaymentTx(s.db, info).Ok?
    ensures NoFailure(Pay(s, info, false))
  {
  }

  lemma SuccessFine(s: State, info: OrderInfo, fault: bool)
    requires NoFailure(s)
    ensures NoFailure(Succeed(s, info, fault))
  {
  }

  /** All that a covered system keeps. */
  ghost predicate Going(before: Db, d: DState) {
    && DInv(d) && NoFailure(d.s)
    && (forall p: nat :: Conserved(before, d.s, p))
    && (forall u: nat :: Solvent(before, d.s, u))
  }

  lemma OthersFine(s: State, step: Step)
    requires Enabled(s, step) && NoFailure(s) && !step.ConsumeCreated? && !step.ConsumeDeductStock?
    ensures NoFailure(Apply(s, step))
  {
    match step
    case PlaceOrder(info) => PlaceFine(s, info);
    case Publish(t, sent, acked) => PublishFine(s, t, sent, acked);
    case MarkPublished(t, ok) => MarkFine(s, t, Success);
    case Compensate(t, committed) => CompensateFine(s, t, committed);
    case MarkCompensated(t, ok) => MarkFine(s, t, Success);
    case GiveUp(t, ok) => MarkFine(s, t, Fail);
    case ConsumePayment(info, fault) => SuccessFine(s, info, fault);
    case _ =>
  }

  lemma StepFine(before: Db, d: DState, step: Step)
    requires Going(before, d) && DEnabled(d, step) && Covered(before, d.s.book)
    ensures NoFailure(Apply(d.s, step))
  {
    match step
    case ConsumeCreated(info, fault) =>
      var i := MessagePlace(d, OrderCreated, info);
      DeductionGoesThrough(before, d.s, i);
      DeductFine(d.s, info);
    case ConsumeDeductStock(info, fault) =>
      var i := MessagePlace(d, OrderDeductStock, info);
      assert Solvent(before, d.s, info.userId);
      PaymentGoesThrough(before, d.s, i);
      PayFine(d.s, info);
    case _ => OthersFine(d.s, step);
  }

  lemma WalletsStay(s: State, step: Step, u: nat)
    requires Enabled(s, step) && u in s.db.wallets
    ensures u in Apply(s, step).db.wallets
  {
    match step
    case PlaceOrder(info) => assert Place(s, info).db.wallets == s.db.wallets;
    case OpenWallet(userId) =>
    case ChargePoint(userId, amount) =>
    case ConsumeDeductStock(info, fault) => PaymentWrites(s, info, fault);
    case _ => OthersSame(s, step);
  }

  lemma StepSolvent(before: Db, s: State, step: Step, u: nat)
    requires Inv(s) && BookInv(s) && Enabled(s, step) && Solvent(before, s, u)
    ensures Solvent(before, Apply(s, step), u)
  {
    StepMoney(before, s, step, u, Only(u));
    StepCharges(s, step, u);
    if u in s.db.wallets { WalletsStay(s, step, u); }
  }

  lemma StepGoing(before: Db, d: DState, step: Step)
    requires Going(before, d) && DEnabled(d, step) && Covered(before, d.s.book)
    ensures Going(before, DApply(d, step))
  {
    StepDrains(d, step);
    StepFine(before, d, step);
    assert DApply(d, step).s == Apply(d.s, step);
    forall p: nat ensures Conserved(before, Apply(d.s, step), p) { StepConserves(before, d.s, step, p); }
    forall u: nat ensures Solvent(before, Apply(d.s, step), u) { StepSolvent(before, d.s, step, u); }
  }

  lemma BookStep(s: State, step: Step)
    requires Enabled(s, step)
    ensures s.book <= Apply(s, step).book
  {
    match step
    case PlaceOrder(info) =>
    case ConsumeDeductStock(info, fault) => PaymentWrites(s, info, fault);
    case OpenWallet(userId) =>
    case ChargePoint(userId, amount) =>
    case _ => OthersSame(s, step);
  }

  lemma {:induction false} BookGrows(d: DState, steps: seq<Step>)
    requires DLegal(d, steps)
    ensures d.s.book <= DExec(d, steps).s.book
    decreases |steps|
  {
    if steps != [] {
      BookStep(d.s, steps[0]);
      assert DApply(d, steps[0]).s == Apply(d.s, steps[0]);
      BookGrows(DApply(d, steps[0]), steps[1..]);
    }
  }

  lemma {:induction false} RunGoing(before: Db, d: DState, steps: seq<Step>)
    requires Going(before, d) && DLegal(d, steps) && Covered(before, DExec(d, steps).s.book)
    ensures Going(before, DExec(d, steps))
    decreases |steps|
  {
    if steps != [] {
      BookGrows(d, steps);
      CoveredPart(before, d.s.book, DExec(d, steps).s.book);
      StepGoing(before, d, steps[0]);
      RunGoing(before, DApply(d, steps[0]), steps[1..]);
    }
  }

  lemma BeginsGoing(s: State)
    requires Initial(s)
    ensures Going(s.db, DState(s, {}))
  {
    InitialInv(s);
  }

  // ------------------------------------------------------------------------------- the ends

  predicate PaidFor(s: State, id: nat) {
    id in s.db.orders && s.db.orders[id].status.Paid?
  }

  lemma CompleteIsPaid(s: State, id: nat)
    requires Inv(s) && AllInit(s.db) && Complete(s.db, id) && id in s.db.orders
    ensures PaidFor(s, id)
  {
    assert EffectInv(s, id);
  }

  /** If the stock of the beginning covers all orders that have arrived, and each wallet those of
      its user, then a fault-free system in which every order is complete has paid them all. */
  lemma CoveredOrdersArePaid(s: State, steps: seq<Step>, i: nat)
    requires Initial(s) && DLegal(DState(s, {}), steps)
    requires var e := DExec(DState(s, {}), steps).s;
             Covered(s.db, e.book) && AllComplete(e.db) && i < |e.book|
    ensures var e := DExec(DState(s, {}), steps).s; PaidFor(e, e.book[i].id)
  {
    BeginsGoing(s);
    RunGoing(s.db, DState(s, {}), steps);
    var e := DExec(DState(s, {}), steps).s;
    assert Placed(e.db, e.book[i]);
    CompleteIsPaid(e, e.book[i].id);
  }

  /** The order has items, none twice, and for each at least one unit and a stock that covers it;
      its user can pay for all. */
  predicate Payable(s: State, info: OrderInfo) {
    && |info.items| >= 1 && info.id !in s.db.orders
    && (forall i, j | 0 <= i < j < |info.items| :: info.items[i].productId != info.items[j].productId)
    && (forall i | 0 <= i < |info.items| ::
          && info.items[i].quantity >= 1 && info.items[i].productId in s.db.stock
          && s.db.stock[info.items[i].productId] >= info.items[i].quantity)
    && info.userId in s.db.wallets && s.db.wallets[info.userId].totalPoint >= Cost(info.items)
  }

  lemma SumOfOne(info: OrderInfo, f: OrderInfo -> int)
    ensures Sum([info], f) == f(info)
  {
    SumAppend([], info, f);
    assert [] + [info] == [info];
  }

  lemma UnitsCovered(stock: map<nat, int>, items: seq<Item>, p: nat)
    requires Distinct(items) && p in stock && stock[p] >= 0
    requires forall i | 0 <= i < |items| && items[i].productId in stock ::
               stock[items[i].productId] >= items[i].quantity
    ensures TotalQty(items, p) <= stock[p]
  {
    if Ordered(items, p) {
      var i :| 0 <= i < |items| && items[i].productId == p;
      TotalQtyIs(items, i);
    } else {
      NotOrdered(items, p);
    }
  }

  lemma OneOrderCovered(s: State, info: OrderInfo)
    requires Initial(s) && Payable(s, info)
    ensures Covered(s.db, [info])
  {
    forall p | p in s.db.stock ensures Sum([info], Wanted(p)) <= s.db.stock[p] {
      SumOfOne(info, Wanted(p));
      UnitsCovered(s.db.stock, info.items, p);
    }
    forall u | u in s.db.wallets ensures Sum([info], Owed(u)) <= s.db.wallets[u].totalPoint {
      SumOfOne(info, Owed(u));
    }
  }

  /** Nothing arrives, so the book stays. */
  lemma {:induction false} SameBook(d: DState, steps: seq<Step>)
    requires DLegal(d, steps) && NoArrivals(steps)
    ensures DExec(d, steps).s.book == d.s.book
    decreases |steps|
  {
    if steps != [] {
      assert !Arrival(steps[0]);
      SameBookStep(d.s, steps[0]);
      assert DApply(d, steps[0]).s == Apply(d.s, steps[0]);
      assert forall i | 0 <= i < |steps[1..]| :: steps[1..][i] == steps[i + 1];
      SameBook(DApply(d, steps[0]), steps[1..]);
    }
  }

  lemma SameBookStep(s: State, step: Step)
    requires Enabled(s, step) && !Arrival(step)
    ensures Apply(s, step).book == s.book
  {
    match step
    case ConsumeDeductStock(info, fault) => PaymentWrites(s, info, fault);
    case _ => OthersSame(s, step);
  }

  lemma {:induction false} NoneCharged(d: DState, steps: seq<Step>, u: nat)
    requires DLegal(d, steps) && NoArrivals(steps) && Legal(d.s, steps)
    ensures Charged(d.s, steps, u) == 0
    decreases |steps|
  {
    if steps != [] {
      assert !Arrival(steps[0]);
      assert DApply(d, steps[0]).s == Apply(d.s, steps[0]);
      assert forall i | 0 <= i < |steps[1..]| :: steps[1..][i] == steps[i + 1];
      NoneCharged(DApply(d, steps[0]), steps[1..], u);
    }
  }

  /** From every initial state, for every order that stock and balance cover, a fault-free run places
      it and ends with every order complete. */
  lemma RunToTheEnd(s: State, info: OrderInfo) returns (steps: seq<Step>)
    requires Initial(s) && Payable(s, info)
    ensures DLegal(DState(s, {}), steps) && Legal(s, steps) && UndisturbedRun(s, steps)
    ensures var e := DExec(DState(s, {}), steps).s; e == Exec(s, steps) && e.book == [info] && AllComplete(e.db)
    ensures forall u :: Charged(s, steps, u) == 0
  {
    var (d, place) := (DState(s, {}), PlaceOrder(info));
    InitialInv(s);
    BeginsGoing(s);
    FirstOrder(s, info);
    StepDrains(d, place);
    var placed := DApply(d, place);
    var more := DrainCompletes(placed);
    SameBook(placed, more);
    DrainIsARun(placed, more);
    forall u ensures Charged(placed.s, more, u) == 0 { NoneCharged(placed, more, u); }
    steps := [place] + more;
    assert steps[0] == place && steps[1..] == more;
    DrainIsARun(d, steps);
  }

  lemma FirstOrder(s: State, info: OrderInfo)
    requires Initial(s) && Payable(s, info)
    ensures DEnabled(DState(s, {}), PlaceOrder(info))
    ensures DApply(DState(s, {}), PlaceOrder(info)).s == Place(s, info) && Place(s, info).book == [info]
  {
    PlacedExactly(s.db, info);
  }

  /** And it ends with the order PAID, the balance lower by price times quantity of its items and
      each stock by its units. */
  lemma PayableOrderIsPaid(s: State, info: OrderInfo) returns (steps: seq<Step>)
    requires Initial(s) && Payable(s, info)
    ensures DLegal(DState(s, {}), steps) && Legal(s, steps)
    ensures var e := Exec(s, steps);
            && e.book == [info] && AllComplete(e.db) && PaidFor(e, info.id)
            && Balance(e.db, info.userId) == Balance(s.db, info.userId) - Cost(info.items)
            && forall i | 0 <= i < |info.items| ::
                 var p := info.items[i].productId;
                 p in s.db.stock && p in e.db.stock && e.db.stock[p] == s.db.stock[p] - info.items[i].quantity
  {
    steps := RunToTheEnd(s, info);
    var e := Exec(s, steps);
    OneOrderCovered(s, info);
    CoveredOrdersArePaid(s, steps, 0);
    InitialInv(s);
    RunInv(s, steps);
    PaidBalance(s, steps, info);
    forall i | 0 <= i < |info.items|
      ensures var p := info.items[i].productId;
              p in s.db.stock && p in e.db.stock && e.db.stock[p] == s.db.stock[p] - info.items[i].quantity
    {
      PaidStock(s, steps, info, i);
    }
  }

  lemma PaidBalance(s: State, steps: seq<Step>, info: OrderInfo)
    requires Initial(s) && Legal(s, steps) && Charged(s, steps, info.userId) == 0
    requires var e := Exec(s, steps); e.book == [info] && PaidFor(e, info.id) && Inv(e)
    ensures Balance(Exec(s, steps).db, info.userId) == Balance(s.db, info.userId) - Cost(info.items)
  {
    var e := Exec(s, steps);
    WhatIsLeft(s, steps, info.userId);
    assert EffectInv(e, info.id) && ChainInv(e.db, info.id);
    SumOfOne(info, IfPaid(e.db, Only(info.userId)));
  }

  lemma PaidStock(s: State, steps: seq<Step>, info: OrderInfo, i: nat)
    requires Initial(s) && Legal(s, steps) && UndisturbedRun(s, steps) && i < |info.items|
    requires var e := Exec(s, steps);
             e.book == [info] && PaidFor(e, info.id) && Inv(e) && BookInv(e) && AllComplete(e.db)
    ensures var (e, p) := (Exec(s, steps), info.items[i].productId);
            p in s.db.stock && p in e.db.stock && e.db.stock[p] == s.db.stock[p] - info.items[i].quantity
  {
    var e, p := Exec(s, steps), info.items[i].productId;
    assert Placed(e.db, e.book[0]);
    UndisturbedBooksBalance(s, steps, p);
    SumOfOne(info, PaidUnits(e.db, p));
    TotalQtyIs(info.items, i);
    DistinctQty(info.items, p);
  }

  // ------------------------------------------------------------------------- and only then

  lemma PaidAreHeld(e: State, o: OrderInfo, p: nat)
    requires EffectInv(e, o.id) && ChainInv(e.db, o.id) && e.log[StockRestored(o.id)] <= 1
    ensures PaidUnits(e.db, p)(o) <= Held(e.log, p)(o)
  {
  }

  /** In an undisturbed run the units of the PAID orders never exceed the initial stock. */
  lemma PaidUnitsWereThere(s: State, steps: seq<Step>, p: nat)
    requires Initial(s) && Legal(s, steps) && UndisturbedRun(s, steps) && p in Exec(s, steps).db.stock
    ensures p in s.db.stock
    ensures Sum(Exec(s, steps).book, PaidUnits(Exec(s, steps).db, p)) <= s.db.stock[p]
  {
    var e := Exec(s, steps);
    InitialInv(s);
    RunInv(s, steps);
    StockConservation(s, steps, p);
    forall i | 0 <= i < |e.book| ensures PaidUnits(e.db, p)(e.book[i]) <= Held(e.log, p)(e.book[i]) {
      assert EffectInv(e, e.book[i].id) && ChainInv(e.db, e.book[i].id);
      UndisturbedRunsRestoreOnce(s, steps, e.book[i].id);
      PaidAreHeld(e, e.book[i], p);
    }
    SumAtMost(e.book, Held(e.log, p), PaidUnits(e.db, p));
  }

  /** In any run what a user's paid orders cost never exceeds what was there and what was charged. */
  lemma CostsWereThere(s: State, steps: seq<Step>, u: nat)
    requires Initial(s) && Legal(s, steps)
    ensures Sum(Exec(s, steps).book, IfPaid(Exec(s, steps).db, Only(u))) <= Balance(s.db, u) + Charged(s, steps, u)
  {
    WhatIsLeft(s, steps, u);
    MoneyConservation(s, steps, u);
  }
}
