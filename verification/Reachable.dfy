/** Runs from the beginning: for every initial state and every order that can be placed and
    deducted there are runs to a deduction, to a circle of re-drives, and to any number of
    restores. */
module Reachable {
  import opened Domain
  import opened Effects
  import opened Saga
  import SagaTheorems
  import opened Duplicates

  function KeyOf(info: OrderInfo, event: EventType): Key {
    Key(info.id, event)
  }

  /** The order has items, none twice, and for each at least one unit and a stock that covers it. */
  predicate Servable(s: State, info: OrderInfo) {
    && Initial(s) && info.id !in s.db.orders && |info.items| >= 1
    && (forall i, j | 0 <= i < j < |info.items| :: info.items[i].productId != info.items[j].productId)
    && forall i | 0 <= i < |info.items| ::
         && info.items[i].quantity >= 1 && info.items[i].productId in s.db.stock
         && s.db.stock[info.items[i].productId] >= info.items[i].quantity
  }

  /** So it can be placed and its stock deducted. */
  lemma ServableGoesThrough(s: State, info: OrderInfo)
    requires Servable(s, info)
    ensures Orderable(s, info) && PlaceTx(s.db, info).Ok? && Deducted(s.db.stock, info.items).Ok?
  {
    PlacedExactly(s.db, info);
    DeductionIsAllOrNothing(s.db.stock, info.items);
  }

  predicate Quiet(s: State) {
    s.tasks == map[] && s.recoveries == multiset{}
  }

  /** The order's stock has been deducted and both of its rows published. */
  predicate AfterDeduction(s0: State, s: State, info: OrderInfo) {
    && Quiet(s)
    && s.db.outbox == map[KeyOf(info, OrderCreated) := Row(info, Success, Init),
                          KeyOf(info, OrderDeductStock) := Row(info, Success, Init)]
    && Message(OrderCreated, info) in s.topics && Message(OrderDeductStock, info) in s.topics
    && Ok(s.db.stock) == Deducted(s0.db.stock, info.items)
    && s.log[StockRestored(info.id)] == 0
  }

  lemma RunToPlaced(s: State, info: OrderInfo) returns (steps: seq<Step>, e: State)
    requires Servable(s, info)
    ensures Goes(s, steps, e) && Quiet(e) && e.db.stock == s.db.stock && e.log[StockRestored(info.id)] == 0
    ensures e.db.outbox == map[KeyOf(info, OrderCreated) := Row(info, Success, Init)]
    ensures Message(OrderCreated, info) in e.topics
  {
    ServableGoesThrough(s, info);
    var k := KeyOf(info, OrderCreated);
    var placed := Place(s, info);
    assert placed.db.outbox == map[k := Row(info, Init, Init)];
    assert WithStatus(placed.db.outbox, Init) == {k};
    GoesOnce(s, PlaceOrder(info));
    var more;
    more, e := PublishOne(placed, 0, k);
    GoesFar(s, [PlaceOrder(info)], placed, more, e);
    steps := [PlaceOrder(info)] + more;
  }

  lemma RunToDeducted(s: State, info: OrderInfo) returns (steps: seq<Step>, e: State)
    requires Servable(s, info)
    ensures Goes(s, steps, e) && AfterDeduction(s, e, info)
  {
    ServableGoesThrough(s, info);
    var k := KeyOf(info, OrderDeductStock);
    var published;
    steps, published := RunToPlaced(s, info);
    var deducted := Saga.DeductStock(published, info, false);
    assert deducted.db.outbox == published.db.outbox[k := Row(info, Init, Init)];
    assert WithStatus(deducted.db.outbox, Init) == {k};
    GoesOn(s, steps, published, ConsumeCreated(info, false));
    steps := steps + [ConsumeCreated(info, false)];
    var more;
    more, e := PublishOne(deducted, 0, k);
    GoesFar(s, steps, deducted, more, e);
    steps := steps + more;
  }

  /** The stock covers the order a second time. */
  predicate CoversTwice(stock: map<nat, int>, items: seq<Item>) {
    forall i | 0 <= i < |items| && items[i].productId in stock :: stock[items[i].productId] >= 2 * items[i].quantity
  }

  /** After the deduction a second one is refused for good exactly if the stock did not cover the
      order twice. */
  lemma RefusedAfterwards(before: State, s: State, info: OrderInfo)
    requires Servable(before, info) && AfterDeduction(before, s, info)
    ensures RefusedForGood(s.db, info, false) <==> !CoversTwice(before.db.stock, info.items)
  {
    var stock, left, items := before.db.stock, s.db.stock, info.items;
    ServableGoesThrough(before, info);
    DeductionIsAllOrNothing(stock, items);
    DeductionIsAllOrNothing(left, items);
    forall i | 0 <= i < |items| ensures left[items[i].productId] == stock[items[i].productId] - items[i].quantity {
      TotalQtyIs(items, i);
    }
  }

  /** From every initial state, for every order that can be placed and deducted, a run leads to
      the circle of re-drives: with no fault at all if the stock covers the order twice, and by
      one fault in each round otherwise. */
  lemma CircleIsReached(s: State, info: OrderInfo, fault: bool)
    returns (before: seq<Step>, e: State, round: seq<Step>)
    requires Servable(s, info) && (fault || CoversTwice(s.db.stock, info.items))
    ensures Goes(s, before, e) && AfterDeduction(s, e, info)
    ensures Round(e, info, 0, fault, round)
  {
    before, e := RunToDeducted(s, info);
    SagaTheorems.Reached(s, before);
    if !fault { RefusedAfterwards(s, e, info); }
    assert WithStatus(e.db.outbox, Init) == {};
    round := DuplicateDeliveryGoesRound(e, info, 0, fault);
  }

  /** The payment has failed and its row waits for compensation. */
  predicate Unpaid(s: State, info: OrderInfo) {
    var k := KeyOf(info, OrderPayment);
    && Quiet(s) && info.items != []
    && k in s.db.outbox && s.db.outbox[k] == Row(info, Fail, Fail) && WithStatus(s.db.outbox, Fail) == {k}
  }

  lemma PaymentFails(s: State, info: OrderInfo) returns (steps: seq<Step>)
    requires Message(OrderDeductStock, info) in s.topics && KeyOf(info, OrderPayment) !in s.db.outbox
    ensures Goes(s, steps, s.(db := s.db.(outbox := s.db.outbox[KeyOf(info, OrderPayment) := Row(info, Fail, Fail)])))
  {
    var owed := Owe(s, FailPayment(info));
    assert Apply(s, ConsumeDeductStock(info, true)) == owed;
    assert owed.recoveries - multiset{FailPayment(info)} == s.recoveries;
    GoesTwice(s, ConsumeDeductStock(info, true), owed, Recover(FailPayment(info), true));
    steps := [ConsumeDeductStock(info, true), Recover(FailPayment(info), true)];
  }

  lemma RunToUnpaid(s: State, info: OrderInfo) returns (steps: seq<Step>, e: State)
    requires Servable(s, info)
    ensures Goes(s, steps, e) && Unpaid(e, info)
    ensures Ok(e.db.stock) == Deducted(s.db.stock, info.items) && e.log[StockRestored(info.id)] == 0
  {
    var k, mid := KeyOf(info, OrderPayment), s;
    steps, mid := RunToDeducted(s, info);
    var more := PaymentFails(mid, info);
    e := mid.(db := mid.db.(outbox := mid.db.outbox[k := Row(info, Fail, Fail)]));
    GoesFar(s, steps, mid, more, e);
    steps := steps + more;
    assert WithStatus(e.db.outbox, Fail) == {k};
  }

  /** The restore has committed, its mark is lost and the poller stops. */
  function AfterLostMark(s: State, t: TaskId, info: OrderInfo): State
    requires info.items != []
  {
    s.(db := s.db.(stock := Restored(s.db.stock, info.items).value),
       tasks := map[],
       log := s.log + multiset{StockRestored(info.id), RestoredBy(t)})
  }

  lemma RestoreAndLose(s: State, t: TaskId, info: OrderInfo) returns (steps: seq<Step>)
    requires t.key == KeyOf(info, OrderPayment) && info.items != []
    requires t.key in s.db.outbox && s.db.outbox[t.key].payload == info
    requires s.tasks == map[t := Task(Compensating, 0)]
    ensures Goes(s, steps, AfterLostMark(s, t, info))
  {
    var end := AfterLostMark(s, t, info);
    var restored := end.(tasks := map[t := Task(MarkingCompensated, 0)]);
    var lost := end.(tasks := map[t := Task(Compensating, 1)]);
    assert CompensateOnce(s, t, true) == restored;
    assert restored.tasks[t := Task(Compensating, 1)] == lost.tasks;
    GoesTwice(s, Compensate(t, true), restored, MarkCompensated(t, false));
    assert lost.tasks - {t} == map[];
    GoesOn(s, [Compensate(t, true), MarkCompensated(t, false)], lost, Abandon(t));
    steps := [Compensate(t, true), MarkCompensated(t, false)] + [Abandon(t)];
  }

  lemma ReadOne(s: State, t: TaskId)
    requires s.tasks == map[] && WithStatus(s.db.outbox, Fail) == {t.key} && t.poller == 0
    ensures Enabled(s, PollFail(0, {t.key}))
    ensures Apply(s, PollFail(0, {t.key})).tasks == map[t := Task(Compensating, 0)]
    ensures forall id :: Apply(s, PollFail(0, {t.key})).log[StockRestored(id)] == s.log[StockRestored(id)]
  {
    var polled := set j | j in {t.key} :: Polled(TaskId(0, j));
    assert forall id :: StockRestored(id) !in polled;
  }

  /** A restore commits, its mark is lost and the poller stops. */
  lemma LostMark(s: State, info: OrderInfo) returns (steps: seq<Step>, e: State)
    requires Unpaid(s, info)
    ensures Goes(s, steps, e) && Unpaid(e, info)
    ensures Ok(e.db.stock) == Restored(s.db.stock, info.items)
    ensures e.log[StockRestored(info.id)] == s.log[StockRestored(info.id)] + 1
  {
    var t := TaskId(0, KeyOf(info, OrderPayment));
    var poll := PollFail(0, {t.key});
    ReadOne(s, t);
    var read := Apply(s, poll);
    GoesOnce(s, poll);
    var more := RestoreAndLose(read, t, info);
    e := AfterLostMark(read, t, info);
    GoesFar(s, [poll], read, more, e);
    steps := [poll] + more;
  }

  /** The units deducted once and restored `n` times. */
  predicate StockAfter(before: map<nat, int>, after: map<nat, int>, items: seq<Item>, n: nat) {
    && after.Keys == before.Keys
    && forall p | p in before :: after[p] == before[p] - LastQty(items, p) + n * FirstQty(items, p)
  }

  lemma OneRestoreMore(before: map<nat, int>, mid: map<nat, int>, items: seq<Item>, n: nat)
    requires items != [] && StockAfter(before, mid, items, n)
    ensures StockAfter(before, Restored(mid, items).value, items, n + 1)
  {
    var after := Restored(mid, items).value;
    forall p | p in before ensures after[p] == before[p] - LastQty(items, p) + (n + 1) * FirstQty(items, p) {
      OneTimeMore(n, FirstQty(items, p));
    }
  }

  lemma OneTimeMore(n: nat, q: nat)
    ensures (n + 1) * q == n * q + q
  {
  }

  lemma NoneRestored(before: map<nat, int>, items: seq<Item>)
    requires Deducted(before, items).Ok?
    ensures StockAfter(before, Deducted(before, items).value, items, 0)
  {
  }

  /** The order is unpaid and its stock has been restored `n` times. */
  predicate RestoredTimes(s: State, e: State, info: OrderInfo, n: nat) {
    Unpaid(e, info) && e.log[StockRestored(info.id)] == n && StockAfter(s.db.stock, e.db.stock, info.items, n)
  }

  lemma OnceMore(s: State, mid: State, info: OrderInfo, n: nat) returns (steps: seq<Step>, e: State)
    requires RestoredTimes(s, mid, info, n)
    ensures Goes(mid, steps, e) && RestoredTimes(s, e, info, n + 1)
  {
    steps, e := LostMark(mid, info);
    OneRestoreMore(s.db.stock, mid.db.stock, info.items, n);
  }

  /** For every `n` there is a run from the beginning, through lost marks, after which the stock
      of the order has been restored `n` times. */
  lemma {:induction false} RestoredAnyNumberOfTimes(s: State, info: OrderInfo, n: nat)
    returns (steps: seq<Step>, e: State)
    requires Servable(s, info)
    ensures Goes(s, steps, e) && RestoredTimes(s, e, info, n)
  {
    if n == 0 {
      ServableGoesThrough(s, info);
      steps, e := RunToUnpaid(s, info);
      NoneRestored(s.db.stock, info.items);
    } else {
      var mid;
      steps, mid := RestoredAnyNumberOfTimes(s, info, n - 1);
      var more;
      more, e := OnceMore(s, mid, info, n - 1);
      GoesFar(s, steps, mid, more, e);
      steps := steps + more;
    }
  }

  /** Three units in stock, an order of two: two lost restores and there are five. */
  lemma RestoredTwice() returns (s: State, steps: seq<Step>)
    ensures Initial(s) && s.db.stock == map[7 := 3] && Legal(s, steps)
    ensures var e := Exec(s, steps); e.log[StockRestored(1)] == 2 && e.db.stock == map[7 := 5]
  {
    var info := OrderInfo(1, 1, [Item(7, 2, 100)]);
    s := State(Db(map[], map[], map[7 := 3], map[], [], map[]), [], {}, map[], multiset{}, multiset{});
    FirstQtyIs(info.items, 0);
    LastQtyIs(info.items, 0);
    assert !Short(s.db.stock, info.items);
    var e;
    steps, e := RestoredAnyNumberOfTimes(s, info, 2);
    assert e.db.stock[7] == 3 - 2 + 2 * 2;
  }
}
