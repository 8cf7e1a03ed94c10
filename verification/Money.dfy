/** Where the money is after any run of the saga. */
module Money {
  import opened Domain
  import opened Saga
  import opened SagaInvariant
  import opened Accounting
  import opened Effects

  function PointSum(points: seq<Point>, u: nat): int {
    if points == [] then 0
    else PointSum(points[..|points| - 1], u)
         + (if points[|points| - 1].userId == u then points[|points| - 1].amount else 0)
  }

  function PointCount(points: seq<Point>, u: nat): nat {
    if points == [] then 0
    else PointCount(points[..|points| - 1], u) + (if points[|points| - 1].userId == u then 1 else 0)
  }

  /** The USE rows of some users. */
  function UseSum(points: seq<Point>, who: nat -> bool): int {
    if points == [] then 0
    else UseSum(points[..|points| - 1], who)
         + (if points[|points| - 1].kind.Use? && who(points[|points| - 1].userId)
            then points[|points| - 1].amount else 0)
  }

  /** The CHARGE rows of a user. */
  function ChargeSum(points: seq<Point>, u: nat): int {
    if points == [] then 0
    else ChargeSum(points[..|points| - 1], u)
         + (if points[|points| - 1].kind.Charge? && points[|points| - 1].userId == u
            then points[|points| - 1].amount else 0)
  }

  lemma PointAppended(points: seq<Point>, x: Point, u: nat)
    ensures PointSum(points + [x], u) == PointSum(points, u) + (if x.userId == u then x.amount else 0)
    ensures PointCount(points + [x], u) == PointCount(points, u) + (if x.userId == u then 1 else 0)
    ensures ChargeSum(points + [x], u)
            == ChargeSum(points, u) + (if x.kind.Charge? && x.userId == u then x.amount else 0)
  {
    assert (points + [x])[..|points|] == points;
  }

  lemma UseAppended(points: seq<Point>, x: Point, who: nat -> bool)
    ensures UseSum(points + [x], who) == UseSum(points, who) + (if x.kind.Use? && who(x.userId) then x.amount else 0)
  {
    assert (points + [x])[..|points|] == points;
  }

  function Balance(db: Db, u: nat): int {
    if u in db.wallets then db.wallets[u].totalPoint else 0
  }

  function Version(db: Db, u: nat): nat {
    if u in db.wallets then db.wallets[u].version else 0
  }

  /** The balance has moved by the point rows written, the version by their number. */
  predicate Ledgered(before: Db, db: Db, u: nat) {
    && Balance(db, u) - Balance(before, u) == PointSum(db.points, u) - PointSum(before.points, u)
    && Version(db, u) - Version(before, u) == PointCount(db.points, u) - PointCount(before.points, u)
    && Balance(db, u) >= 0
  }

  /** A wallet has been written together with its point row. */
  predicate Moved(db: Db, after: Db, x: Point) {
    && x.userId in db.wallets
    && after.points == db.points + [x]
    && after.wallets == db.wallets[x.userId := Wallet(db.wallets[x.userId].totalPoint + x.amount,
                                                     db.wallets[x.userId].version + 1)]
  }

  lemma MovedWallet(db: Db, after: Db, x: Point, u: nat)
    requires Moved(db, after, x)
    ensures Balance(after, u) == Balance(db, u) + (if x.userId == u then x.amount else 0)
    ensures Version(after, u) == Version(db, u) + (if x.userId == u then 1 else 0)
  {
  }

  lemma MovedLedgers(before: Db, db: Db, after: Db, x: Point, u: nat)
    requires Ledgered(before, db, u) && Moved(db, after, x)
    requires x.userId == u ==> Balance(db, u) + x.amount >= 0
    ensures Ledgered(before, after, u)
  {
    MovedWallet(db, after, x, u);
    PointAppended(db.points, x, u);
  }

  /** What an order has paid. */
  function Spent(log: multiset<Entry>, who: nat -> bool): OrderInfo -> int {
    (o: OrderInfo) => if who(o.userId) then log[PointsUsed(o.id)] * Amount(o.items) else 0
  }

  /** The USE rows are the payments of the orders, one for one. */
  predicate Paying(before: Db, s: State, who: nat -> bool) {
    UseSum(before.points, who) - UseSum(s.db.points, who) == Sum(s.book, Spent(s.log, who))
  }

  ghost predicate Same(s: State, s': State) {
    && s'.book == s.book && s'.db.wallets == s.db.wallets && s'.db.points == s.db.points
    && forall id: nat :: s'.log[PointsUsed(id)] == s.log[PointsUsed(id)]
  }

  predicate MoneyInv(before: Db, s: State, u: nat, who: nat -> bool) {
    Ledgered(before, s.db, u) && Paying(before, s, who)
  }

  lemma SameMoney(before: Db, s: State, s': State, u: nat, who: nat -> bool)
    requires MoneyInv(before, s, u, who) && Same(s, s')
    ensures MoneyInv(before, s', u, who)
  {
    SumSame(s.book, Spent(s.log, who), Spent(s'.log, who));
  }

  /** An order placed now has not paid. */
  lemma NotPaidYet(s: State, info: OrderInfo, who: nat -> bool)
    requires ChainInv(s.db, info.id) && EffectInv(s, info.id) && info.id !in s.db.orders
    ensures Spent(s.log, who)(info) == 0
  {
    assert s.log[PointsUsed(info.id)] == 0;
  }

  lemma PlaceMoney(before: Db, s: State, info: OrderInfo, u: nat, who: nat -> bool)
    requires ChainInv(s.db, info.id) && EffectInv(s, info.id) && Orderable(s, info) && MoneyInv(before, s, u, who)
    ensures MoneyInv(before, Place(s, info), u, who)
  {
    var s' := Place(s, info);
    if PlaceTx(s.db, info).Ok? {
      NotPaidYet(s, info, who);
      SumAppend(s.book, info, Spent(s.log, who));
      assert s'.db.wallets == s.db.wallets && s'.db.points == s.db.points && s'.log == s.log;
    }
  }

  /** A payment spends the order's amount, once. */
  lemma OneSpent(s: State, s': State, info: OrderInfo, i: nat, who: nat -> bool)
    requires s'.book == s.book && DistinctIds(s.book) && i < |s.book| && s.book[i] == info
    requires s.log[PointsUsed(info.id)] == 0 && s'.log[PointsUsed(info.id)] == 1
    requires forall id: nat | id != info.id :: s'.log[PointsUsed(id)] == s.log[PointsUsed(id)]
    ensures Sum(s'.book, Spent(s'.log, who))
            == Sum(s.book, Spent(s.log, who)) + (if who(info.userId) then Amount(info.items) else 0)
  {
    forall j | 0 <= j < |s.book| && j != i ensures Spent(s'.log, who)(s.book[j]) == Spent(s.log, who)(s.book[j]) {
      assert s.book[j].id != info.id;
    }
    SumBump(s.book, i, Spent(s.log, who), Spent(s'.log, who));
    Once(Amount(info.items));
  }

  lemma Once(a: nat)
    ensures 0 * a == 0 && 1 * a == a
  {
  }

  lemma PaymentMoves(s: State, info: OrderInfo)
    requires PaymentTx(s.db, info).Ok?
    ensures var x := Point(info.userId, -(Amount(info.items) as int), Use);
            && Moved(s.db, Pay(s, info, false).db, x)
            && s.db.wallets[x.userId].totalPoint + x.amount >= 0
  {
  }

  lemma PayMoney(before: Db, s: State, info: OrderInfo, fault: bool, u: nat, who: nat -> bool)
    requires BookInv(s) && Known(s.db, info) && MoneyInv(before, s, u, who)
    requires EffectInv(s, info.id)
    ensures MoneyInv(before, Pay(s, info, fault), u, who)
  {
    var s' := Pay(s, info, fault);
    PaymentWrites(s, info, fault);
    if !fault && PaymentTx(s.db, info).Ok? {
      var i := PlaceOf(s, info);
      var x := Point(info.userId, -(Amount(info.items) as int), Use);
      PaymentMoves(s, info);
      MovedLedgers(before, s.db, s'.db, x, u);
      OneSpent(s, s', info, i, who);
      UseAppended(s.db.points, x, who);
    } else {
      SameMoney(before, s, s', u, who);
    }
  }

  lemma ChargeMoney(before: Db, s: State, userId: nat, amount: nat, u: nat, who: nat -> bool)
    requires MoneyInv(before, s, u, who)
    ensures MoneyInv(before, WithDb(s, ChargeTx(s.db, userId, amount)), u, who)
  {
    var s' := WithDb(s, ChargeTx(s.db, userId, amount));
    if userId in s.db.wallets {
      var x := Point(userId, amount, Charge);
      assert Moved(s.db, s'.db, x);
      MovedLedgers(before, s.db, s'.db, x, u);
      UseAppended(s.db.points, x, who);
    }
  }

  lemma OpenMoney(before: Db, s: State, userId: nat, u: nat, who: nat -> bool)
    requires MoneyInv(before, s, u, who) && userId !in s.db.wallets
    ensures MoneyInv(before, s.(db := s.db.(wallets := s.db.wallets[userId := Wallet(0, 0)])), u, who)
  {
    SumSame(s.book, Spent(s.log, who), Spent(s.log, who));
  }

  lemma ConsumersSame(s: State, info: OrderInfo, fault: bool)
    ensures Same(s, DeductStock(s, info, fault)) && Same(s, Succeed(s, info, fault))
  {
    DeductionWrites(s, info, fault);
  }

  lemma PublishSame(s: State, t: TaskId, sent: bool, acked: bool)
    requires InStage(s, t, Publishing) && t.key in s.db.outbox
    ensures Same(s, PublishOnce(s, t, sent, acked))
  {
    var s' := PublishOnce(s, t, sent, acked);
    assert s'.db == s.db && s'.book == s.book;
  }

  lemma CompensateSame(s: State, t: TaskId, committed: bool)
    requires InStage(s, t, Compensating) && t.key in s.db.outbox
    ensures Same(s, CompensateOnce(s, t, committed))
  {
    var s' := CompensateOnce(s, t, committed);
    assert s'.db.wallets == s.db.wallets && s'.db.points == s.db.points;
  }

  lemma MarksSame(s: State, t: TaskId, status: EventStatus)
    requires t in s.tasks
    ensures Same(s, Done(WithDb(s, SetStatus(s.db, t.key, status)), t))
    ensures Same(s, Done(s, t)) && Same(s, RetryCompensation(s, t))
  {}

  lemma StepMoney(before: Db, s: State, step: Step, u: nat, who: nat -> bool)
    requires Inv(s) && BookInv(s) && Enabled(s, step) && MoneyInv(before, s, u, who)
    ensures MoneyInv(before, Apply(s, step), u, who)
  {
    match step
    case PlaceOrder(info) =>
      assert EffectInv(s, info.id) && ChainInv(s.db, info.id);
      PlaceMoney(before, s, info, u, who);
    case OpenWallet(userId) => OpenMoney(before, s, userId, u, who);
    case ChargePoint(userId, amount) => ChargeMoney(before, s, userId, amount, u, who);
    case ConsumeDeductStock(info, fault) =>
      Delivered(s, OrderDeductStock, info);
      PayMoney(before, s, info, fault, u, who);
    case _ =>
      OthersSame(s, step);
      SameMoney(before, s, Apply(s, step), u, who);
  }

  lemma OthersSame(s: State, step: Step)
    requires Enabled(s, step)
    requires !step.PlaceOrder? && !step.OpenWallet? && !step.ChargePoint? && !step.ConsumeDeductStock?
    ensures Same(s, Apply(s, step))
  {
    match step
    case Publish(t, sent, acked) => PublishSame(s, t, sent, acked);
    case MarkPublished(t, ok) => MarksSame(s, t, Success);
    case Compensate(t, committed) => CompensateSame(s, t, committed);
    case MarkCompensated(t, ok) => MarksSame(s, t, Success);
    case GiveUp(t, ok) => MarksSame(s, t, Fail);
    case ConsumeCreated(info, fault) => ConsumersSame(s, info, fault);
    case ConsumePayment(info, fault) => ConsumersSame(s, info, fault);
    case Recover(r, ok) => RecoverySame(s, r, ok);
    case PollInit(poller, keys) => ReadSame(s, poller, keys, Publishing);
    case PollFail(poller, keys) => ReadSame(s, poller, keys, Compensating);
    case _ =>
  }

  lemma RecoverySame(s: State, r: Recovery, ok: bool)
    ensures Same(s, RecoverOnce(s, r, ok))
  {}

  lemma ReadSame(s: State, poller: nat, keys: set<Key>, stage: Stage)
    ensures Same(s, WithTasks(s, poller, keys, stage))
  {}

  lemma {:induction false} RunMoney(before: Db, s: State, steps: seq<Step>, u: nat, who: nat -> bool)
    requires Inv(s) && BookInv(s) && Legal(s, steps) && MoneyInv(before, s, u, who)
    ensures MoneyInv(before, Exec(s, steps), u, who)
    decreases |steps|
  {
    if steps != [] {
      StepInv(s, steps[0]);
      StepBookInv(s, steps[0]);
      StepMoney(before, s, steps[0], u, who);
      RunMoney(before, Apply(s, steps[0]), steps[1..], u, who);
    }
  }

  /** What the orders of some users have cost, if their payment row was born INIT. */
  function IfPaid(db: Db, who: nat -> bool): OrderInfo -> int {
    (o: OrderInfo) => if who(o.userId) && BornInit(db, o.id, OrderPayment) then Cost(o.items) as int else 0
  }

  function Anyone(): nat -> bool {
    v => true
  }

  function Only(u: nat): nat -> bool {
    v => v == u
  }

  lemma MoneyOf(s: State, steps: seq<Step>, u: nat, who: nat -> bool)
    requires Initial(s) && Legal(s, steps)
    ensures Ledgered(s.db, Exec(s, steps).db, u)
    ensures UseSum(s.db.points, who) - UseSum(Exec(s, steps).db.points, who)
            == Sum(Exec(s, steps).book, IfPaid(Exec(s, steps).db, who))
  {
    InitialInv(s);
    RunMoney(s.db, s, steps, u, who);
    RunInv(s, steps);
    var e := Exec(s, steps);
    forall i | 0 <= i < |e.book| ensures Spent(e.log, who)(e.book[i]) == IfPaid(e.db, who)(e.book[i]) {
      assert EffectInv(e, e.book[i].id);
      AmountIsCost(e.book[i].items);
    }
    SumSame(e.book, Spent(e.log, who), IfPaid(e.db, who));
  }

  /** After any run no balance is negative, every balance has moved by exactly the point rows
      written for it and every version by their number, and the USE rows add up to the
      price times quantity of the orders whose payment row was born INIT. */
  lemma MoneyConservation(s: State, steps: seq<Step>, u: nat)
    requires Initial(s) && Legal(s, steps)
    ensures var e := Exec(s, steps);
            && Balance(e.db, u) >= 0
            && Balance(e.db, u) - Balance(s.db, u) == PointSum(e.db.points, u) - PointSum(s.db.points, u)
            && Version(e.db, u) - Version(s.db, u) == PointCount(e.db.points, u) - PointCount(s.db.points, u)
            && UseSum(s.db.points, Anyone()) - UseSum(e.db.points, Anyone()) == Sum(e.book, IfPaid(e.db, Anyone()))
  {
    MoneyOf(s, steps, u, Anyone());
  }

  // ------------------------------------------------------------------------------- charges

  /** What a step credits to a user. */
  function ChargeOf(s: State, step: Step, u: nat): nat {
    if step.ChargePoint? && step.userId == u && u in s.db.wallets then step.amount else 0
  }

  /** What the charges of a run credit to a user: those made while there is a wallet. */
  function Charged(s: State, steps: seq<Step>, u: nat): nat
    requires Legal(s, steps)
    decreases |steps|
  {
    if steps == [] then 0 else ChargeOf(s, steps[0], u) + Charged(Apply(s, steps[0]), steps[1..], u)
  }

  lemma StepCharges(s: State, step: Step, u: nat)
    requires Enabled(s, step)
    ensures ChargeSum(Apply(s, step).db.points, u) == ChargeSum(s.db.points, u) + ChargeOf(s, step, u)
  {
    match step
    case PlaceOrder(info) => assert Place(s, info).db.points == s.db.points;
    case OpenWallet(userId) =>
    case ChargePoint(userId, amount) =>
      if userId in s.db.wallets { PointAppended(s.db.points, Point(userId, amount, Charge), u); }
    case ConsumeDeductStock(info, fault) => PaymentIsNoCharge(s, info, fault, u);
    case _ => OthersSame(s, step);
  }

  lemma PaymentIsNoCharge(s: State, info: OrderInfo, fault: bool, u: nat)
    ensures ChargeSum(Pay(s, info, fault).db.points, u) == ChargeSum(s.db.points, u)
  {
    PaymentWrites(s, info, fault);
    PointAppended(s.db.points, Point(info.userId, -(Amount(info.items) as int), Use), u);
  }

  /** Over every run the CHARGE rows written for a user add up to the charges made. */
  lemma {:induction false} ChargeRows(s: State, steps: seq<Step>, u: nat)
    requires Legal(s, steps)
    ensures ChargeSum(Exec(s, steps).db.points, u) == ChargeSum(s.db.points, u) + Charged(s, steps, u)
    decreases |steps|
  {
    if steps != [] {
      StepCharges(s, steps[0], u);
      ChargeRows(Apply(s, steps[0]), steps[1..], u);
    }
  }

  /** After any run a user has what was there, and what was charged, less what the items of the
      orders paid have cost. */
  lemma WhatIsLeft(s: State, steps: seq<Step>, u: nat)
    requires Initial(s) && Legal(s, steps)
    ensures var e := Exec(s, steps);
            Balance(e.db, u) == Balance(s.db, u) + Charged(s, steps, u) - Sum(e.book, IfPaid(e.db, Only(u)))
  {
    MoneyOf(s, steps, u, Only(u));
    ChargeRows(s, steps, u);
    KindsAre(s.db.points, u);
    KindsAre(Exec(s, steps).db.points, u);
  }

  /** A row is a charge or a use. */
  lemma {:induction false} KindsAre(points: seq<Point>, u: nat)
    ensures PointSum(points, u) == ChargeSum(points, u) + UseSum(points, Only(u))
  {
    if points != [] { KindsAre(points[..|points| - 1], u); }
  }
}
