/** The order saga as a state machine: the tables, the topics, the events a poller has read
    and not finished, and the recovery writes a failed consumer still owes. Every commit to
    the database is one step. A step names its own failures, so a run is any sequence of
    steps: messages are delivered any number of times and in any order (or never), writes
    and publications fail, pollers crash and any number of them run at once. */
module Saga {
  import opened Domain

  const BATCH := 500
  /** One try and three retries. */
  const ATTEMPTS := 4

  datatype Message = Message(event: EventType, info: OrderInfo)

  /** An outbox row in the hands of a poller. */
  datatype TaskId = TaskId(poller: nat, key: Key)
  datatype Stage = Publishing | MarkingPublished | Compensating | MarkingCompensated | GivingUp
  /** `attempt` counts the attempts already spent. */
  datatype Task = Task(stage: Stage, attempt: nat)

  /** What a consumer still writes after its transaction was rolled back. */
  datatype Recovery = FailDeduct(info: OrderInfo) | ReDrive(info: OrderInfo) | FailPayment(info: OrderInfo)

  /** What has been committed or sent. No code reads it. */
  datatype Entry =
    | StockDeducted(id: nat)
    | StockRestored(id: nat)
    | PointsUsed(id: nat)
    | MarkedPaid(id: nat)
    | Polled(task: TaskId)
    | Emitted(task: TaskId)
    | RestoredBy(task: TaskId)

  /** `book` lists the orders as they were placed; it and `log` are history. */
  datatype State = State(
    db: Db,
    book: seq<OrderInfo>,
    topics: set<Message>,
    tasks: map<TaskId, Task>,
    recoveries: multiset<Recovery>,
    log: multiset<Entry>)

  datatype Step =
    | PlaceOrder(info: OrderInfo)
    | OpenWallet(userId: nat)
    | ChargePoint(userId: nat, amount: nat)
    | PollInit(poller: nat, keys: set<Key>)
    | Publish(task: TaskId, sent: bool, acked: bool)
    | MarkPublished(task: TaskId, ok: bool)
    | PollFail(poller: nat, keys: set<Key>)
    | Compensate(task: TaskId, committed: bool)
    | MarkCompensated(task: TaskId, ok: bool)
    | GiveUp(task: TaskId, ok: bool)
    | Abandon(task: TaskId)
    | ConsumeCreated(info: OrderInfo, fault: bool)
    | ConsumeDeductStock(info: OrderInfo, fault: bool)
    | ConsumePayment(info: OrderInfo, fault: bool)
    | Recover(recovery: Recovery, ok: bool)

  // -------------------------------------------------------------------------- reading

  function WithStatus(outbox: map<Key, Row>, status: EventStatus): set<Key> {
    set k | k in outbox && outbox[k].status == status
  }

  function Min(a: nat, b: nat): nat {
    if a <= b then a else b
  }

  /** `findEventsByStatus`: any rows of that status, at most 500, none left out if fewer. */
  predicate Batch(outbox: map<Key, Row>, status: EventStatus, keys: set<Key>) {
    && keys <= WithStatus(outbox, status)
    && |keys| == Min(BATCH, |WithStatus(outbox, status)|)
  }

  /** A poller reads again only when its last pass is over. */
  predicate Idle(s: State, poller: nat) {
    forall t | t in s.tasks :: t.poller != poller
  }

  predicate InStage(s: State, t: TaskId, stage: Stage) {
    t in s.tasks && s.tasks[t].stage == stage
  }

  // --------------------------------------------------------------------------- writing

  function WithTasks(s: State, poller: nat, keys: set<Key>, stage: Stage): State {
    s.(tasks := s.tasks + map k | k in keys :: TaskId(poller, k) := Task(stage, 0),
       log := s.log + multiset(set k | k in keys :: Polled(TaskId(poller, k))))
  }

  function Done(s: State, t: TaskId): State {
    s.(tasks := s.tasks - {t})
  }

  function Goto(s: State, t: TaskId, task: Task): State {
    s.(tasks := s.tasks[t := task])
  }

  /** The next attempt at a compensation, or the end of the retries. */
  function RetryCompensation(s: State, t: TaskId): State
    requires t in s.tasks
  {
    var n := s.tasks[t].attempt;
    if n + 1 < ATTEMPTS then Goto(s, t, Task(Compensating, n + 1)) else Goto(s, t, Task(GivingUp, n))
  }

  function WithDb(s: State, r: Result<Db>): State {
    if r.Ok? then s.(db := r.value) else s
  }

  function Place(s: State, info: OrderInfo): State {
    var r := PlaceTx(s.db, info);
    if r.Ok? then s.(db := r.value, book := s.book + [info]) else s
  }

  /** One publication. A failed one may have reached the topic all the same; after the last
      failure the error is swallowed and the row is left INIT. */
  function PublishOnce(s: State, t: TaskId, sent: bool, acked: bool): State
    requires InStage(s, t, Publishing) && t.key in s.db.outbox
  {
    var n := s.tasks[t].attempt;
    var s1 := if sent then s.(topics := s.topics + {Message(t.key.event, s.db.outbox[t.key].payload)}) else s;
    var s2 := if t.key.event.OrderSuccess? then s1 else s1.(log := s1.log + multiset{Emitted(t)});
    if acked then Goto(s2, t, Task(MarkingPublished, 0))
    else if n + 1 < ATTEMPTS then Goto(s2, t, Task(Publishing, n + 1))
    else Done(s2, t)
  }

  /** `executeCompensation` up to its mark. A restore that fails is swallowed; a failure to
      set the order FAILED is retried. */
  function CompensateOnce(s: State, t: TaskId, committed: bool): State
    requires InStage(s, t, Compensating) && t.key in s.db.outbox
  {
    var info := s.db.outbox[t.key].payload;
    var next := Task(MarkingCompensated, s.tasks[t].attempt);
    if t.key.event.OrderPayment? then
      var r := if committed then RestoreTx(s.db, info) else Err(Conflict);
      if r.Ok? then
        Goto(s.(db := r.value, log := s.log + multiset{StockRestored(info.id), RestoredBy(t)}), t, next)
      else Goto(s, t, next)
    else
      var r := if committed then SetOrderStatus(s.db, info.id, Failed) else Err(Conflict);
      if r.Ok? then Goto(s.(db := r.value), t, next) else RetryCompensation(s, t)
  }

  function MarkCompensatedOnce(s: State, t: TaskId, ok: bool): State
    requires t in s.tasks
  {
    if ok then Done(WithDb(s, SetStatus(s.db, t.key, Success)), t) else RetryCompensation(s, t)
  }

  function Owe(s: State, r: Recovery): State {
    s.(recoveries := s.recoveries + multiset{r})
  }

  function DeductStock(s: State, info: OrderInfo, fault: bool): State {
    var r := if fault then Err(Conflict) else DeductTx(s.db, info);
    if r.Ok? then s.(db := r.value, log := s.log + multiset{StockDeducted(info.id)})
    else Owe(s, if r.error.OutOfStock? then FailDeduct(info) else ReDrive(info))
  }

  function Pay(s: State, info: OrderInfo, fault: bool): State {
    var r := if fault then Err(Conflict) else PaymentTx(s.db, info);
    if r.Ok? then s.(db := r.value, log := s.log + multiset{PointsUsed(info.id)})
    else Owe(s, FailPayment(info))
  }

  function Succeed(s: State, info: OrderInfo, fault: bool): State {
    var r := if fault then Err(Conflict) else SuccessTx(s.db, info);
    if r.Ok? then s.(db := r.value, log := s.log + multiset{MarkedPaid(info.id)}) else s
  }

  /** The write after a rollback: a FAIL row, which the unique key may refuse, or
      `order.created` back to INIT. */
  function RecoveryTx(db: Db, r: Recovery): Result<Db> {
    match r
    case FailDeduct(info) => CreateRow(db, info, OrderDeductStock, Fail)
    case FailPayment(info) => CreateRow(db, info, OrderPayment, Fail)
    case ReDrive(info) => SetStatus(db, Key(info.id, OrderCreated), Init)
  }

  function RecoverOnce(s: State, r: Recovery, ok: bool): State {
    var s1 := s.(recoveries := s.recoveries - multiset{r});
    if ok then WithDb(s1, RecoveryTx(s1.db, r)) else s1
  }

  // ------------------------------------------------------------------- the step relation

  /** What the request validation and the reservation before it have checked: a fresh
      order id, at least one unit of each item and a stock row for each product. */
  predicate Orderable(s: State, info: OrderInfo) {
    && info.id !in s.db.orders
    && forall i | 0 <= i < |info.items| :: info.items[i].quantity >= 1 && info.items[i].productId in s.db.stock
  }

  predicate Enabled(s: State, step: Step) {
    match step
    case PlaceOrder(info) => Orderable(s, info)
    case OpenWallet(userId) => userId !in s.db.wallets
    case ChargePoint(userId, amount) => true
    case PollInit(poller, keys) => Idle(s, poller) && Batch(s.db.outbox, Init, keys)
    case Publish(t, sent, acked) =>
      && InStage(s, t, Publishing)
      && t.key in s.db.outbox
      && (if t.key.event.OrderSuccess? then !sent && acked else acked ==> sent)
    case MarkPublished(t, ok) => InStage(s, t, MarkingPublished)
    case PollFail(poller, keys) => Idle(s, poller) && Batch(s.db.outbox, Fail, keys)
    case Compensate(t, committed) => InStage(s, t, Compensating) && t.key in s.db.outbox
    case MarkCompensated(t, ok) => InStage(s, t, MarkingCompensated)
    case GiveUp(t, ok) => InStage(s, t, GivingUp)
    case Abandon(t) => t in s.tasks
    case ConsumeCreated(info, fault) => Message(OrderCreated, info) in s.topics
    case ConsumeDeductStock(info, fault) => Message(OrderDeductStock, info) in s.topics
    case ConsumePayment(info, fault) => Message(OrderPayment, info) in s.topics
    case Recover(r, ok) => r in s.recoveries
  }

  function Apply(s: State, step: Step): State
    requires Enabled(s, step)
  {
    match step
    case PlaceOrder(info) => Place(s, info)
    case OpenWallet(userId) => s.(db := s.db.(wallets := s.db.wallets[userId := Wallet(0, 0)]))
    case ChargePoint(userId, amount) => WithDb(s, ChargeTx(s.db, userId, amount))
    case PollInit(poller, keys) => WithTasks(s, poller, keys, Publishing)
    case Publish(t, sent, acked) => PublishOnce(s, t, sent, acked)
    case MarkPublished(t, ok) => if ok then Done(WithDb(s, SetStatus(s.db, t.key, Success)), t) else Done(s, t)
    case PollFail(poller, keys) => WithTasks(s, poller, keys, Compensating)
    case Compensate(t, committed) => CompensateOnce(s, t, committed)
    case MarkCompensated(t, ok) => MarkCompensatedOnce(s, t, ok)
    case GiveUp(t, ok) => if ok then Done(WithDb(s, SetStatus(s.db, t.key, Fail)), t) else Done(s, t)
    case Abandon(t) => Done(s, t)
    case ConsumeCreated(info, fault) => DeductStock(s, info, fault)
    case ConsumeDeductStock(info, fault) => Pay(s, info, fault)
    case ConsumePayment(info, fault) => Succeed(s, info, fault)
    case Recover(r, ok) => RecoverOnce(s, r, ok)
  }

  // -------------------------------------------------------------------------------- runs

  /** Any stock, wallets and point rows; no orders yet. */
  predicate Initial(s: State) {
    && s.db.orders == map[] && s.db.items == map[] && s.db.outbox == map[]
    && s.book == [] && s.topics == {} && s.tasks == map[]
    && s.recoveries == multiset{} && s.log == multiset{}
    && (forall p | p in s.db.stock :: s.db.stock[p] >= 0)
    && (forall u | u in s.db.wallets :: s.db.wallets[u].totalPoint >= 0)
  }

  predicate Legal(s: State, steps: seq<Step>)
    decreases |steps|
  {
    steps == [] || (Enabled(s, steps[0]) && Legal(Apply(s, steps[0]), steps[1..]))
  }

  function Exec(s: State, steps: seq<Step>): State
    requires Legal(s, steps)
    decreases |steps|
  {
    if steps == [] then s else Exec(Apply(s, steps[0]), steps[1..])
  }

  /** Running on is running further. */
  lemma {:induction false} ExecAppend(s: State, a: seq<Step>, b: seq<Step>)
    requires Legal(s, a)
    ensures Legal(s, a + b) <==> Legal(Exec(s, a), b)
    ensures Legal(s, a + b) ==> Exec(s, a + b) == Exec(Exec(s, a), b)
    decreases |a|
  {
    if a == [] {
      assert a + b == b;
    } else {
      assert (a + b)[0] == a[0] && (a + b)[1..] == a[1..] + b;
      ExecAppend(Apply(s, a[0]), a[1..], b);
    }
  }

  /** The steps lead from one state to the other. */
  predicate Goes(s: State, steps: seq<Step>, e: State) {
    Legal(s, steps) && Exec(s, steps) == e
  }

  lemma GoesOnce(s: State, a: Step)
    requires Enabled(s, a)
    ensures Goes(s, [a], Apply(s, a))
  {
    var rest := [a][1..];
    assert rest == [];
    assert Legal(Apply(s, a), rest) && Exec(Apply(s, a), rest) == Apply(s, a);
  }

  lemma GoesFar(s: State, a: seq<Step>, mid: State, b: seq<Step>, e: State)
    requires Goes(s, a, mid) && Goes(mid, b, e)
    ensures Goes(s, a + b, e)
  {
    ExecAppend(s, a, b);
  }

  lemma GoesOn(s: State, a: seq<Step>, mid: State, step: Step)
    requires Goes(s, a, mid) && Enabled(mid, step)
    ensures Goes(s, a + [step], Apply(mid, step))
  {
    GoesOnce(mid, step);
    GoesFar(s, a, mid, [step], Apply(mid, step));
  }

  lemma GoesTwice(s: State, a: Step, mid: State, b: Step)
    requires Enabled(s, a) && Apply(s, a) == mid && Enabled(mid, b)
    ensures Goes(s, [a, b], Apply(mid, b))
  {
    GoesOnce(s, a);
    GoesOn(s, [a], mid, b);
    assert [a] + [b] == [a, b];
  }
}
