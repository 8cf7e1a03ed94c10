/** A failure-free drain of the saga: every message is delivered exactly once, one poller
    runs and no write fails; running out of stock or of points is allowed. Whatever the
    order of the steps, the drain is over after a bounded number of them and leaves every
    order complete. */
module Drain {
  import opened Domain
  import opened Saga
  import opened SagaInvariant
  import opened Accounting
  import opened Completion

  /** The saga and the messages sent and not yet delivered. */
  datatype DState = DState(s: State, inbox: set<Message>)

  predicate Arrival(step: Step) {
    step.PlaceOrder? || step.OpenWallet? || step.ChargePoint?
  }

  predicate Gentle(d: DState, step: Step) {
    match step
    case PlaceOrder(_) => true
    case OpenWallet(_) => true
    case ChargePoint(_, _) => true
    case PollInit(poller, keys) => poller == 0 && keys != {}
    case Publish(t, sent, acked) => acked && (sent <==> !t.key.event.OrderSuccess?)
    case MarkPublished(_, ok) => ok
    case PollFail(poller, keys) => poller == 0 && keys != {}
    case Compensate(_, committed) => committed
    case MarkCompensated(_, ok) => ok
    case GiveUp(_, _) => false
    case Abandon(_) => false
    case ConsumeCreated(info, fault) => !fault && Message(OrderCreated, info) in d.inbox
    case ConsumeDeductStock(info, fault) => !fault && Message(OrderDeductStock, info) in d.inbox
    case ConsumePayment(info, fault) => !fault && Message(OrderPayment, info) in d.inbox
    case Recover(_, ok) => ok
  }

  predicate DEnabled(d: DState, step: Step) {
    Enabled(d.s, step) && Gentle(d, step)
  }

  function DApply(d: DState, step: Step): DState
    requires DEnabled(d, step)
  {
    var s' := Apply(d.s, step);
    match step
    case Publish(t, sent, _) =>
      DState(s', if sent then d.inbox + {Message(t.key.event, d.s.db.outbox[t.key].payload)} else d.inbox)
    case ConsumeCreated(info, _) => DState(s', d.inbox - {Message(OrderCreated, info)})
    case ConsumeDeductStock(info, _) => DState(s', d.inbox - {Message(OrderDeductStock, info)})
    case ConsumePayment(info, _) => DState(s', d.inbox - {Message(OrderPayment, info)})
    case _ => DState(s', d.inbox)
  }

  // ------------------------------------------------------------- one order, seen in lanes

  /** How far the row of one stage has come: no row; born INIT, in the hands of a poller,
      published and to be marked, done; the same for a row born FAIL. `Broken` is any other
      combination of row and task. */
  datatype Phase = Absent | Ready | Sending | Sent | Marked | ToUndo | Undoing | Undone | Closed | Broken

  /** One stage of an order: its row, whether its message waits for delivery, and how many
      FAIL rows are owed for it. */
  datatype Lane = Lane(phase: Phase, waits: bool, owes: nat)

  function PhaseOf(s: State, k: Key): Phase {
    var t := TaskId(0, k);
    if k !in s.db.outbox then (if t in s.tasks then Broken else Absent)
    else
      var row := s.db.outbox[k];
      if row.born.Init? then
        if t !in s.tasks then (if row.status.Init? then Ready else if row.status.Success? then Marked else Broken)
        else if !row.status.Init? then Broken
        else if s.tasks[t].stage.Publishing? then Sending
        else if s.tasks[t].stage.MarkingPublished? then Sent
        else Broken
      else if row.born.Fail? then
        if t !in s.tasks then (if row.status.Fail? then ToUndo else if row.status.Success? then Closed else Broken)
        else if !row.status.Fail? then Broken
        else if s.tasks[t].stage.Compensating? then Undoing
        else if s.tasks[t].stage.MarkingCompensated? then Undone
        else Broken
      else Broken
  }

  function LaneOf(d: DState, o: OrderInfo, event: EventType): Lane {
    Lane(PhaseOf(d.s, Key(o.id, event)),
         Message(event, o) in d.inbox,
         match event
         case OrderDeductStock => d.s.recoveries[FailDeduct(o)]
         case OrderPayment => d.s.recoveries[FailPayment(o)]
         case _ => 0)
  }

  /** The event of this stage has been published. */
  predicate Out(p: Phase) {
    p.Sent? || p.Marked?
  }

  predicate Failing(p: Phase) {
    p.ToUndo? || p.Undoing? || p.Undone? || p.Closed?
  }

  function Bit(b: bool): nat {
    if b then 1 else 0
  }

  /** A published event is waiting, or its failure is being recorded, or the next stage has
      its row: exactly one of the three. */
  predicate Linked(l: Lane, next: Lane) {
    Bit(l.waits) + next.owes + Bit(!next.phase.Absent?) == Bit(Out(l.phase))
  }

  /** The four stages of an order. */
  datatype View = View(created: Lane, deduct: Lane, payment: Lane, success: Lane)

  function ViewOf(d: DState, o: OrderInfo): View {
    View(LaneOf(d, o, OrderCreated), LaneOf(d, o, OrderDeductStock),
         LaneOf(d, o, OrderPayment), LaneOf(d, o, OrderSuccess))
  }

  predicate ViewOk(v: View) {
    && !v.created.phase.Broken? && !v.deduct.phase.Broken? && !v.payment.phase.Broken? && !v.success.phase.Broken?
    && !v.created.phase.Absent? && !v.success.waits
    && Linked(v.created, v.deduct) && Linked(v.deduct, v.payment) && Linked(v.payment, v.success)
  }

  predicate OrderOk(d: DState, o: OrderInfo) {
    ViewOk(ViewOf(d, o))
  }

  predicate AllOk(d: DState) {
    forall i | 0 <= i < |d.s.book| :: OrderOk(d, d.s.book[i])
  }

  ghost predicate DInv(d: DState) {
    && Inv(d.s) && BookInv(d.s) && OnePoller(d.s)
    && d.inbox <= d.s.topics
    && (forall r | r in d.s.recoveries :: !r.ReDrive?)
    && AllOk(d)
  }

  // ------------------------------------------------------------------------- the measure

  /** Steps a stage can still cause: none if it will never come about. */
  function PhaseRank(p: Phase): nat {
    match p
    case Absent => 6
    case Ready => 4
    case Sending => 3
    case Sent => 1
    case Marked => 0
    case ToUndo => 3
    case Undoing => 2
    case Undone => 1
    case Closed => 0
    case Broken => 0
  }

  function LaneRank(l: Lane, dead: bool): nat {
    Bit(l.waits)
    + if l.phase.Absent? && dead then 0 else if l.phase.Absent? && l.owes > 0 then 5 else PhaseRank(l.phase)
  }

  function ViewRank(v: View): nat {
    LaneRank(v.created, false) + LaneRank(v.deduct, false)
    + LaneRank(v.payment, Failing(v.deduct.phase))
    + LaneRank(v.success, Failing(v.deduct.phase) || Failing(v.payment.phase))
  }

  function OrderRank(d: DState): OrderInfo -> int {
    (o: OrderInfo) => ViewRank(ViewOf(d, o))
  }

  function Measure(d: DState): int {
    Sum(d.s.book, OrderRank(d))
  }

  lemma {:induction false} SumDrops(book: seq<OrderInfo>, i: nat, f: OrderInfo -> int, g: OrderInfo -> int)
    requires i < |book| && g(book[i]) < f(book[i])
    requires forall j | 0 <= j < |book| :: g(book[j]) <= f(book[j])
    ensures Sum(book, g) < Sum(book, f)
  {
    var front := book[..|book| - 1];
    if i < |book| - 1 { SumDrops(front, i, f, g); } else { SumAtMost(front, f, g); }
  }

  lemma {:induction false} SumAtMost(book: seq<OrderInfo>, f: OrderInfo -> int, g: OrderInfo -> int)
    requires forall j | 0 <= j < |book| :: g(book[j]) <= f(book[j])
    ensures Sum(book, g) <= Sum(book, f)
  {
    if book != [] { SumAtMost(book[..|book| - 1], f, g); }
  }

  lemma MeasureNonNegative(d: DState)
    ensures Measure(d) >= 0
  {
    SumAtMost(d.s.book, OrderRank(d), (o: OrderInfo) => 0);
    SumZero(d.s.book, (o: OrderInfo) => 0);
  }

  // --------------------------------------------------------------------- what a step does

  /** What a step may make of the stages of an order. */
  predicate Better(v: View, v': View) {
    ViewOk(v) ==> ViewOk(v') && ViewRank(v') < ViewRank(v)
  }

  predicate SameOrBetter(d: DState, d': DState, o: OrderInfo) {
    ViewOf(d', o) == ViewOf(d, o) || Better(ViewOf(d, o), ViewOf(d', o))
  }

  /** Each order is as before or better, and one is better. */
  predicate Advances(d: DState, d': DState, i: nat) {
    && i < |d.s.book| && d'.s.book == d.s.book
    && Better(ViewOf(d, d.s.book[i]), ViewOf(d', d.s.book[i]))
    && forall j | 0 <= j < |d.s.book| :: SameOrBetter(d, d', d.s.book[j])
  }

  lemma AdvanceDrains(d: DState, d': DState, i: nat)
    requires AllOk(d) && Advances(d, d', i)
    ensures AllOk(d') && Measure(d') < Measure(d)
  {
    forall j | 0 <= j < |d.s.book|
      ensures OrderOk(d', d.s.book[j]) && OrderRank(d')(d.s.book[j]) <= OrderRank(d)(d.s.book[j])
    {
      assert OrderOk(d, d.s.book[j]);
    }
    assert OrderOk(d, d.s.book[i]);
    SumDrops(d.s.book, i, OrderRank(d), OrderRank(d'));
  }

  /** The row a task or a batch is about, as the lane of its order. */
  function At(v: View, event: EventType): Lane {
    match event
    case OrderCreated => v.created
    case OrderDeductStock => v.deduct
    case OrderPayment => v.payment
    case OrderSuccess => v.success
  }

  function With(v: View, event: EventType, l: Lane): View {
    match event
    case OrderCreated => v.(created := l)
    case OrderDeductStock => v.(deduct := l)
    case OrderPayment => v.(payment := l)
    case OrderSuccess => v.(success := l)
  }

  // ------------------------------------------------------------- the moves of one order

  function Moved(v: View, event: EventType, phase: Phase): View {
    With(v, event, At(v, event).(phase := phase))
  }

  /** A later phase of the same standing. */
  predicate Lower(p: Phase, q: Phase) {
    && !p.Absent? && !q.Absent? && !q.Broken? && Out(p) == Out(q) && Failing(p) == Failing(q)
    && PhaseRank(q) < PhaseRank(p)
  }

  lemma LowerCreated(v: View, q: Phase)
    requires Lower(v.created.phase, q)
    ensures Better(v, v.(created := v.created.(phase := q)))
  {}

  lemma LowerDeduct(v: View, q: Phase)
    requires Lower(v.deduct.phase, q)
    ensures Better(v, v.(deduct := v.deduct.(phase := q)))
  {}

  lemma LowerPayment(v: View, q: Phase)
    requires Lower(v.payment.phase, q)
    ensures Better(v, v.(payment := v.payment.(phase := q)))
  {}

  lemma LowerSuccess(v: View, q: Phase)
    requires Lower(v.success.phase, q)
    ensures Better(v, v.(success := v.success.(phase := q)))
  {}

  lemma LowerIsBetter(v: View, event: EventType, q: Phase)
    requires Lower(At(v, event).phase, q)
    ensures Better(v, Moved(v, event, q))
  {
    match event
    case OrderCreated => LowerCreated(v, q);
    case OrderDeductStock => LowerDeduct(v, q);
    case OrderPayment => LowerPayment(v, q);
    case OrderSuccess => LowerSuccess(v, q);
  }

  lemma SendIsBetter(v: View, event: EventType, phase: Phase)
    requires (At(v, event).phase.Ready? && phase.Sending?) || (At(v, event).phase.Sent? && phase.Marked?)
    ensures Better(v, Moved(v, event, phase))
  {
    LowerIsBetter(v, event, phase);
  }

  lemma UndoIsBetter(v: View, event: EventType, phase: Phase)
    requires match At(v, event).phase
             case ToUndo => phase.Undoing?
             case Undoing => phase.Undone?
             case Undone => phase.Closed?
             case _ => false
    ensures Better(v, Moved(v, event, phase))
  {
    LowerIsBetter(v, event, phase);
  }

  lemma PublishIsBetter(v: View, event: EventType)
    requires At(v, event).phase.Sending?
    ensures Better(v, With(v, event, Lane(Sent, !event.OrderSuccess? || At(v, event).waits, At(v, event).owes)))
  {}

  function Next(event: EventType): EventType {
    match event
    case OrderCreated => OrderDeductStock
    case OrderDeductStock => OrderPayment
    case OrderPayment => OrderSuccess
    case OrderSuccess => OrderSuccess
  }

  function Received(v: View, event: EventType): View {
    With(v, event, At(v, event).(waits := false))
  }

  lemma NextIsAbsent(v: View, event: EventType)
    requires !event.OrderSuccess? && At(v, event).waits && ViewOk(v)
    ensures At(v, Next(event)).phase.Absent?
  {}

  lemma RowIsBetter(v: View, event: EventType)
    requires !event.OrderSuccess? && At(v, event).waits
    ensures Better(v, Moved(Received(v, event), Next(event), Ready))
  {
    match event
    case OrderCreated => DeductRowIsBetter(v);
    case OrderDeductStock => PaymentRowIsBetter(v);
    case OrderPayment => SuccessRowIsBetter(v);
  }

  lemma DeductRowIsBetter(v: View)
    requires v.created.waits
    ensures Better(v, v.(created := v.created.(waits := false), deduct := v.deduct.(phase := Ready)))
  {}

  lemma PaymentRowIsBetter(v: View)
    requires v.deduct.waits
    ensures Better(v, v.(deduct := v.deduct.(waits := false), payment := v.payment.(phase := Ready)))
  {}

  lemma SuccessRowIsBetter(v: View)
    requires v.payment.waits
    ensures Better(v, v.(payment := v.payment.(waits := false), success := v.success.(phase := Ready)))
  {}

  lemma FailureIsBetter(v: View, event: EventType)
    requires (event.OrderCreated? || event.OrderDeductStock?) && At(v, event).waits
    ensures var l := At(Received(v, event), Next(event));
            Better(v, With(Received(v, event), Next(event), l.(owes := At(v, Next(event)).owes + 1)))
  {}

  /** A delivery turns the waiting message into the next row or into a recovery. */
  lemma DeliverIsBetter(v: View, event: EventType)
    requires !event.OrderSuccess? && At(v, event).waits
    ensures var v1 := Received(v, event);
            && Better(v, Moved(v1, Next(event), Ready))
            && (!event.OrderPayment? ==>
                  Better(v, With(v1, Next(event), At(v1, Next(event)).(owes := At(v, Next(event)).owes + 1))))
            && (ViewOk(v) ==> At(v, Next(event)).phase.Absent?)
  {
    RowIsBetter(v, event);
    if !event.OrderPayment? { FailureIsBetter(v, event); }
    if ViewOk(v) { NextIsAbsent(v, event); }
  }

  lemma RecoverIsBetter(v: View, event: EventType)
    requires (event.OrderDeductStock? || event.OrderPayment?) && At(v, event).owes > 0
    ensures ViewOk(v) ==> At(v, event).phase.Absent?
    ensures Better(v, With(v, event, Lane(ToUndo, At(v, event).waits, At(v, event).owes - 1)))
  {}

  // ---------------------------------------------------------- the moves of the whole state

  /** Only the row at `k` and the task at it have changed. */
  predicate OnlyAt(s: State, s': State, k: Key) {
    && s'.book == s.book
    && s'.db.outbox.Keys + {k} == s.db.outbox.Keys + {k}
    && (forall j | j in s.db.outbox && j != k :: j in s'.db.outbox && s'.db.outbox[j] == s.db.outbox[j])
    && (forall u | u in s.tasks && u != TaskId(0, k) :: u in s'.tasks && s'.tasks[u] == s.tasks[u])
    && (forall u | u in s'.tasks && u != TaskId(0, k) :: u in s.tasks)
  }

  lemma ViewAfter(d: DState, d': DState, k: Key, o: OrderInfo)
    requires OnlyAt(d.s, d'.s, k) && d'.inbox == d.inbox && d'.s.recoveries == d.s.recoveries
    ensures ViewOf(d', o) == if o.id == k.id then Moved(ViewOf(d, o), k.event, PhaseOf(d'.s, k)) else ViewOf(d, o)
  {
    forall event: EventType | Key(o.id, event) != k ensures LaneOf(d', o, event) == LaneOf(d, o, event) {}
  }

  predicate TaskMove(p: Phase, q: Phase) {
    (p.Sent? && q.Marked?) || (p.Undoing? && q.Undone?) || (p.Undone? && q.Closed?)
  }

  /** A task has moved on. */
  lemma TaskView(d: DState, d': DState, k: Key, o: OrderInfo)
    requires OnlyAt(d.s, d'.s, k) && d'.inbox == d.inbox && d'.s.recoveries == d.s.recoveries
    requires TaskMove(PhaseOf(d.s, k), PhaseOf(d'.s, k))
    ensures SameOrBetter(d, d', o) && (o.id == k.id ==> Better(ViewOf(d, o), ViewOf(d', o)))
  {
    ViewAfter(d, d', k, o);
    if o.id == k.id {
      assert At(ViewOf(d, o), k.event).phase == PhaseOf(d.s, k);
      if PhaseOf(d.s, k).Sent? { SendIsBetter(ViewOf(d, o), k.event, Marked); }
      else { UndoIsBetter(ViewOf(d, o), k.event, PhaseOf(d'.s, k)); }
    }
  }

  lemma TaskAdvances(d: DState, d': DState, k: Key, i: nat)
    requires OnlyAt(d.s, d'.s, k) && d'.inbox == d.inbox && d'.s.recoveries == d.s.recoveries
    requires TaskMove(PhaseOf(d.s, k), PhaseOf(d'.s, k))
    requires i < |d.s.book| && d.s.book[i].id == k.id
    ensures Advances(d, d', i)
  {
    forall j | 0 <= j < |d.s.book|
      ensures SameOrBetter(d, d', d.s.book[j])
      ensures d.s.book[j].id == k.id ==> Better(ViewOf(d, d.s.book[j]), ViewOf(d', d.s.book[j]))
    {
      TaskView(d, d', k, d.s.book[j]);
    }
  }

  // --------------------------------------------------------------------- polls, one by one

  lemma BetterTwice(v: View, v1: View, v2: View)
    requires (v1 == v || Better(v, v1)) && (v2 == v1 || Better(v1, v2))
    ensures v2 == v || Better(v, v2)
    ensures v1 != v || v2 != v1 ==> Better(v, v2)
  {}

  function ReadAt(v: View, keys: set<Key>, id: nat, event: EventType, phase: Phase): View {
    if Key(id, event) in keys then Moved(v, event, phase) else v
  }

  function ReadAll(v: View, keys: set<Key>, id: nat, phase: Phase): View {
    ReadAt(ReadAt(ReadAt(ReadAt(v, keys, id, OrderCreated, phase), keys, id, OrderDeductStock, phase),
                  keys, id, OrderPayment, phase), keys, id, OrderSuccess, phase)
  }

  lemma ReadIsBetter(v: View, keys: set<Key>, id: nat, event: EventType, phase: Phase)
    requires Key(id, event) in keys ==>
               (At(v, event).phase.Ready? && phase.Sending?) || (At(v, event).phase.ToUndo? && phase.Undoing?)
    ensures ReadAt(v, keys, id, event, phase) == v || Better(v, ReadAt(v, keys, id, event, phase))
    ensures Key(id, event) in keys ==> ReadAt(v, keys, id, event, phase) != v
  {
    if Key(id, event) in keys {
      if phase.Sending? { SendIsBetter(v, event, phase); } else { UndoIsBetter(v, event, phase); }
    }
  }

  lemma PollPhase(s: State, keys: set<Key>, status: EventStatus, stage: Stage, k: Key)
    requires RowInv(s.db, k) && Idle(s, 0) && keys <= WithStatus(s.db.outbox, status)
    requires (status.Init? && stage.Publishing?) || (status.Fail? && stage.Compensating?)
    ensures PhaseOf(WithTasks(s, 0, keys, stage), k) ==
            if k in keys then (if status.Init? then Sending else Undoing) else PhaseOf(s, k)
  {}

  lemma PollLane(d: DState, keys: set<Key>, status: EventStatus, stage: Stage, o: OrderInfo, event: EventType)
    requires RowInv(d.s.db, Key(o.id, event)) && Idle(d.s, 0) && keys <= WithStatus(d.s.db.outbox, status)
    requires (status.Init? && stage.Publishing?) || (status.Fail? && stage.Compensating?)
    ensures var d' := DState(WithTasks(d.s, 0, keys, stage), d.inbox);
            var l := LaneOf(d, o, event);
            LaneOf(d', o, event)
            == if Key(o.id, event) in keys then l.(phase := if status.Init? then Sending else Undoing) else l
  {
    PollPhase(d.s, keys, status, stage, Key(o.id, event));
  }

  lemma PollView(d: DState, keys: set<Key>, status: EventStatus, stage: Stage, o: OrderInfo)
    requires Inv(d.s) && Idle(d.s, 0) && keys <= WithStatus(d.s.db.outbox, status)
    requires (status.Init? && stage.Publishing?) || (status.Fail? && stage.Compensating?)
    ensures var d' := DState(WithTasks(d.s, 0, keys, stage), d.inbox);
            ViewOf(d', o) == ReadAll(ViewOf(d, o), keys, o.id, if status.Init? then Sending else Undoing)
  {
    assert RowInv(d.s.db, Key(o.id, OrderCreated)) && RowInv(d.s.db, Key(o.id, OrderDeductStock));
    assert RowInv(d.s.db, Key(o.id, OrderPayment)) && RowInv(d.s.db, Key(o.id, OrderSuccess));
    PollLane(d, keys, status, stage, o, OrderCreated);
    PollLane(d, keys, status, stage, o, OrderDeductStock);
    PollLane(d, keys, status, stage, o, OrderPayment);
    PollLane(d, keys, status, stage, o, OrderSuccess);
  }

  lemma PollStarts(d: DState, keys: set<Key>, status: EventStatus, k: Key)
    requires Inv(d.s) && Idle(d.s, 0) && keys <= WithStatus(d.s.db.outbox, status) && k in keys
    requires status.Init? || status.Fail?
    ensures PhaseOf(d.s, k) == if status.Init? then Ready else ToUndo
  {
    assert RowInv(d.s.db, k);
  }

  lemma ReadAllIsBetter(d: DState, keys: set<Key>, status: EventStatus, o: OrderInfo)
    requires Inv(d.s) && Idle(d.s, 0) && keys <= WithStatus(d.s.db.outbox, status) && (status.Init? || status.Fail?)
    ensures var v := ViewOf(d, o);
            var v' := ReadAll(v, keys, o.id, if status.Init? then Sending else Undoing);
            && (v' == v || Better(v, v'))
            && ((exists k | k in keys :: k.id == o.id) ==> Better(v, v'))
  {
    var phase := if status.Init? then Sending else Undoing;
    forall event: EventType | Key(o.id, event) in keys
      ensures At(ViewOf(d, o), event).phase == if status.Init? then Ready else ToUndo
    {
      PollStarts(d, keys, status, Key(o.id, event));
    }
    var v := ViewOf(d, o);
    ReadInTurn(v, keys, o.id, phase);
    if k :| k in keys && k.id == o.id { assert Key(o.id, k.event) in keys; }
  }

  lemma ReadInTurn(v: View, keys: set<Key>, id: nat, phase: Phase)
    requires phase.Sending? || phase.Undoing?
    requires forall event: EventType | Key(id, event) in keys ::
               At(v, event).phase == if phase.Sending? then Ready else ToUndo
    ensures ReadAll(v, keys, id, phase) == v || Better(v, ReadAll(v, keys, id, phase))
    ensures forall event: EventType | Key(id, event) in keys :: Better(v, ReadAll(v, keys, id, phase))
  {
    var v1 := ReadAt(v, keys, id, OrderCreated, phase);
    var v2 := ReadAt(v1, keys, id, OrderDeductStock, phase);
    var v3 := ReadAt(v2, keys, id, OrderPayment, phase);
    var v4 := ReadAt(v3, keys, id, OrderSuccess, phase);
    ReadIsBetter(v, keys, id, OrderCreated, phase);
    ReadIsBetter(v1, keys, id, OrderDeductStock, phase);
    ReadIsBetter(v2, keys, id, OrderPayment, phase);
    ReadIsBetter(v3, keys, id, OrderSuccess, phase);
    BetterTwice(v, v1, v2);
    BetterTwice(v, v2, v3);
    BetterTwice(v, v3, v4);
  }

  /** Reading a batch that is not empty brings every order in it on. */
  lemma PollAdvances(d: DState, keys: set<Key>, status: EventStatus, stage: Stage) returns (i: nat)
    requires Inv(d.s) && BookInv(d.s) && Idle(d.s, 0) && keys <= WithStatus(d.s.db.outbox, status) && keys != {}
    requires (status.Init? && stage.Publishing?) || (status.Fail? && stage.Compensating?)
    ensures Advances(d, DState(WithTasks(d.s, 0, keys, stage), d.inbox), i)
  {
    var d' := DState(WithTasks(d.s, 0, keys, stage), d.inbox);
    var k :| k in keys;
    assert RowInv(d.s.db, k);
    i := PlaceOf(d.s, d.s.db.outbox[k].payload);
    forall j | 0 <= j < |d.s.book|
      ensures SameOrBetter(d, d', d.s.book[j]) && (j == i ==> Better(ViewOf(d, d.s.book[j]), ViewOf(d', d.s.book[j])))
    {
      PollView(d, keys, status, stage, d.s.book[j]);
      ReadAllIsBetter(d, keys, status, d.s.book[j]);
    }
  }

  // -------------------------------------------------------- publications and deliveries

  lemma PublishAdvances(d: DState, t: TaskId, i: nat)
    requires BookInv(d.s) && t.poller == 0 && InStage(d.s, t, Publishing) && t.key in d.s.db.outbox
    requires i < |d.s.book| && d.s.book[i] == d.s.db.outbox[t.key].payload && t.key.id == d.s.book[i].id
    requires PhaseOf(d.s, t.key).Sending?
    ensures var sent := !t.key.event.OrderSuccess?;
            Advances(d, DState(PublishOnce(d.s, t, sent, true),
                               if sent then d.inbox + {Message(t.key.event, d.s.book[i])} else d.inbox), i)
  {
    var sent := !t.key.event.OrderSuccess?;
    var d' := DState(PublishOnce(d.s, t, sent, true),
                     if sent then d.inbox + {Message(t.key.event, d.s.book[i])} else d.inbox);
    forall j | 0 <= j < |d.s.book|
      ensures SameOrBetter(d, d', d.s.book[j]) && (j == i ==> Better(ViewOf(d, d.s.book[j]), ViewOf(d', d.s.book[j])))
    {
      PublishView(d, d', t, d.s.book[i], d.s.book[j]);
      if j == i { PublishIsBetter(ViewOf(d, d.s.book[i]), t.key.event); } else { OtherId(d.s.book, i, j); }
    }
  }

  lemma OtherId(book: seq<OrderInfo>, i: nat, j: nat)
    requires DistinctIds(book) && i < |book| && j < |book| && i != j
    ensures book[i].id != book[j].id
  {
    if j < i { assert book[j].id != book[i].id; }
  }

  lemma PublishView(d: DState, d': DState, t: TaskId, info: OrderInfo, o: OrderInfo)
    requires t.poller == 0 && InStage(d.s, t, Publishing) && t.key in d.s.db.outbox
    requires d.s.db.outbox[t.key].payload == info && t.key.id == info.id && PhaseOf(d.s, t.key).Sending?
    requires var sent := !t.key.event.OrderSuccess?;
             d' == DState(PublishOnce(d.s, t, sent, true),
                          if sent then d.inbox + {Message(t.key.event, info)} else d.inbox)
    ensures o.id != info.id ==> ViewOf(d', o) == ViewOf(d, o)
    ensures o == info ==> var l := At(ViewOf(d, o), t.key.event);
                          ViewOf(d', o) == With(ViewOf(d, o), t.key.event,
                                                Lane(Sent, !t.key.event.OrderSuccess? || l.waits, l.owes))
  {}

  /** The message of `event` is delivered and the next stage gets its row. */
  predicate GetsRow(d: DState, d': DState, event: EventType, info: OrderInfo) {
    var k := Key(info.id, Next(event));
    && d'.inbox == d.inbox - {Message(event, info)}
    && k !in d.s.db.outbox && d'.s.db.outbox == d.s.db.outbox[k := Row(info, Init, Init)]
    && d'.s.book == d.s.book && d'.s.tasks == d.s.tasks && d'.s.recoveries == d.s.recoveries
  }

  lemma RowPhase(s: State, s': State, key: Key, row: Row, k: Key)
    requires PhaseOf(s, key).Absent? && s'.db.outbox == s.db.outbox[key := row] && s'.tasks == s.tasks
    requires (row.status.Init? && row.born.Init?) || (row.status.Fail? && row.born.Fail?)
    ensures PhaseOf(s', k) == if k == key then (if row.status.Init? then Ready else ToUndo) else PhaseOf(s, k)
  {}

  lemma RowView(d: DState, d': DState, event: EventType, info: OrderInfo, o: OrderInfo)
    requires !event.OrderSuccess? && GetsRow(d, d', event, info) && PhaseOf(d.s, Key(info.id, Next(event))).Absent?
    ensures o.id != info.id ==> ViewOf(d', o) == ViewOf(d, o)
    ensures o == info ==> ViewOf(d', o) == Moved(Received(ViewOf(d, o), event), Next(event), Ready)
  {
    var (k, row) := (Key(info.id, Next(event)), Row(info, Init, Init));
    RowPhase(d.s, d'.s, k, row, Key(o.id, OrderCreated));
    RowPhase(d.s, d'.s, k, row, Key(o.id, OrderDeductStock));
    RowPhase(d.s, d'.s, k, row, Key(o.id, OrderPayment));
    RowPhase(d.s, d'.s, k, row, Key(o.id, OrderSuccess));
  }

  lemma NextAbsent(d: DState, event: EventType, info: OrderInfo)
    requires !event.OrderSuccess? && Message(event, info) in d.inbox && OrderOk(d, info)
    ensures PhaseOf(d.s, Key(info.id, Next(event))).Absent?
  {
    DeliverIsBetter(ViewOf(d, info), event);
  }

  lemma RowDelivered(d: DState, d': DState, event: EventType, i: nat)
    requires DistinctIds(d.s.book) && i < |d.s.book| && !event.OrderSuccess?
    requires Message(event, d.s.book[i]) in d.inbox && GetsRow(d, d', event, d.s.book[i])
    requires PhaseOf(d.s, Key(d.s.book[i].id, Next(event))).Absent?
    ensures Advances(d, d', i)
  {
    DeliverIsBetter(ViewOf(d, d.s.book[i]), event);
    forall j | 0 <= j < |d.s.book|
      ensures SameOrBetter(d, d', d.s.book[j]) && (j == i ==> Better(ViewOf(d, d.s.book[j]), ViewOf(d', d.s.book[j])))
    {
      RowView(d, d', event, d.s.book[i], d.s.book[j]);
      if j != i { OtherId(d.s.book, i, j); }
    }
  }

  function FailOf(event: EventType, info: OrderInfo): Recovery
    requires event.OrderDeductStock? || event.OrderPayment?
  {
    if event.OrderDeductStock? then FailDeduct(info) else FailPayment(info)
  }

  /** The message of `event` is delivered and a FAIL row of the next stage is owed. */
  lemma FailureDelivered(d: DState, d': DState, event: EventType, i: nat)
    requires DistinctIds(d.s.book) && i < |d.s.book| && (event.OrderCreated? || event.OrderDeductStock?)
    requires Message(event, d.s.book[i]) in d.inbox
    requires d' == DState(Owe(d.s, FailOf(Next(event), d.s.book[i])), d.inbox - {Message(event, d.s.book[i])})
    ensures Advances(d, d', i)
  {
    var info := d.s.book[i];
    DeliverIsBetter(ViewOf(d, info), event);
    forall j | 0 <= j < |d.s.book|
      ensures SameOrBetter(d, d', d.s.book[j]) && (j == i ==> Better(ViewOf(d, d.s.book[j]), ViewOf(d', d.s.book[j])))
    {
      FailureView(d, d', event, info, d.s.book[j]);
      if j != i { OtherId(d.s.book, i, j); }
    }
  }

  lemma FailureView(d: DState, d': DState, event: EventType, info: OrderInfo, o: OrderInfo)
    requires event.OrderCreated? || event.OrderDeductStock?
    requires d' == DState(Owe(d.s, FailOf(Next(event), info)), d.inbox - {Message(event, info)})
    ensures o.id != info.id ==> ViewOf(d', o) == ViewOf(d, o)
    ensures o == info ==>
              var v := Received(ViewOf(d, o), event);
              ViewOf(d', o) == With(v, Next(event), At(v, Next(event)).(owes := At(v, Next(event)).owes + 1))
  {}

  /** The FAIL row that was owed is written. */
  lemma RecoveryAdvances(d: DState, d': DState, event: EventType, i: nat)
    requires DistinctIds(d.s.book) && i < |d.s.book| && (event.OrderDeductStock? || event.OrderPayment?)
    requires FailOf(event, d.s.book[i]) in d.s.recoveries && PhaseOf(d.s, Key(d.s.book[i].id, event)).Absent?
    requires d' == DState(RecoverOnce(d.s, FailOf(event, d.s.book[i]), true), d.inbox)
    ensures Advances(d, d', i)
  {
    var info := d.s.book[i];
    RecoverIsBetter(ViewOf(d, info), event);
    forall j | 0 <= j < |d.s.book|
      ensures SameOrBetter(d, d', d.s.book[j]) && (j == i ==> Better(ViewOf(d, d.s.book[j]), ViewOf(d', d.s.book[j])))
    {
      RecoveryView(d, d', event, info, d.s.book[j]);
      if j != i { OtherId(d.s.book, i, j); }
    }
  }

  lemma RecoveryView(d: DState, d': DState, event: EventType, info: OrderInfo, o: OrderInfo)
    requires event.OrderDeductStock? || event.OrderPayment?
    requires FailOf(event, info) in d.s.recoveries && PhaseOf(d.s, Key(info.id, event)).Absent?
    requires d' == DState(RecoverOnce(d.s, FailOf(event, info), true), d.inbox)
    ensures o.id != info.id ==> ViewOf(d', o) == ViewOf(d, o)
    ensures o == info ==>
              var l := At(ViewOf(d, o), event);
              ViewOf(d', o) == With(ViewOf(d, o), event, Lane(ToUndo, l.waits, l.owes - 1))
  {
    RecoveryLane(d, d', event, info, o, OrderCreated);
    RecoveryLane(d, d', event, info, o, OrderDeductStock);
    RecoveryLane(d, d', event, info, o, OrderPayment);
    RecoveryLane(d, d', event, info, o, OrderSuccess);
  }

  lemma RecoveryLane(d: DState, d': DState, event: EventType, info: OrderInfo, o: OrderInfo, other: EventType)
    requires event.OrderDeductStock? || event.OrderPayment?
    requires FailOf(event, info) in d.s.recoveries && PhaseOf(d.s, Key(info.id, event)).Absent?
    requires d' == DState(RecoverOnce(d.s, FailOf(event, info), true), d.inbox)
    ensures o.id != info.id || (o == info && other != event) ==> LaneOf(d', o, other) == LaneOf(d, o, other)
    ensures o == info && other == event ==>
              var l := LaneOf(d, o, event);
              LaneOf(d', o, event) == Lane(ToUndo, l.waits, l.owes - 1)
  {
    var (k, row) := (Key(info.id, event), Row(info, Fail, Fail));
    assert d'.s.db.outbox == d.s.db.outbox[k := row];
    RowPhase(d.s, d'.s, k, row, Key(o.id, other));
  }

  // ------------------------------------------------------------------------- every step

  lemma InShape(d: DState, i: nat, k: Key)
    requires AllOk(d) && i < |d.s.book| && k.id == d.s.book[i].id
    ensures !PhaseOf(d.s, k).Broken?
  {
    assert OrderOk(d, d.s.book[i]);
    assert LaneOf(d, d.s.book[i], k.event).phase == PhaseOf(d.s, k);
  }

  /** Where the order of a task is, and that its row fits the task. */
  lemma TaskPlace(d: DState, t: TaskId) returns (i: nat)
    requires DInv(d) && t in d.s.tasks
    ensures t == TaskId(0, t.key) && t.key in d.s.db.outbox
    ensures i < |d.s.book| && d.s.book[i] == d.s.db.outbox[t.key].payload && d.s.book[i].id == t.key.id
    ensures Placed(d.s.db, d.s.book[i])
    ensures PhaseOf(d.s, t.key) == match d.s.tasks[t].stage
                                   case Publishing => Sending
                                   case MarkingPublished => Sent
                                   case Compensating => Undoing
                                   case MarkingCompensated => Undone
                                   case GivingUp => Broken
    ensures !d.s.tasks[t].stage.GivingUp?
  {
    assert TaskInv(d.s, t) && RowInv(d.s.db, t.key);
    i := PlaceOf(d.s, d.s.db.outbox[t.key].payload);
    InShape(d, i, t.key);
  }

  lemma MessagePlace(d: DState, event: EventType, info: OrderInfo) returns (i: nat)
    requires DInv(d) && Message(event, info) in d.inbox
    ensures i < |d.s.book| && d.s.book[i] == info && Placed(d.s.db, info) && !event.OrderSuccess?
    ensures PhaseOf(d.s, Key(info.id, Next(event))).Absent? && Key(info.id, Next(event)) !in d.s.db.outbox
  {
    assert Message(event, info) in d.s.topics;
    SagaInvariant.Delivered(d.s, event, info);
    i := PlaceOf(d.s, info);
    assert OrderOk(d, d.s.book[i]);
    NextAbsent(d, event, info);
    NoRow(d.s, Key(info.id, Next(event)));
  }

  lemma NoRow(s: State, k: Key)
    requires PhaseOf(s, k).Absent?
    ensures k !in s.db.outbox
  {}

  lemma MarkAdvances(d: DState, t: TaskId) returns (i: nat)
    requires DInv(d) && (InStage(d.s, t, MarkingPublished) || InStage(d.s, t, MarkingCompensated))
    ensures Advances(d, DState(Done(WithDb(d.s, SetStatus(d.s.db, t.key, Success)), t), d.inbox), i)
  {
    i := TaskPlace(d, t);
    MarkMoves(d.s, t);
    TaskAdvances(d, DState(Done(WithDb(d.s, SetStatus(d.s.db, t.key, Success)), t), d.inbox), t.key, i);
  }

  lemma MarkMoves(s: State, t: TaskId)
    requires t == TaskId(0, t.key) && t.key in s.db.outbox
    requires || (InStage(s, t, MarkingPublished) && PhaseOf(s, t.key).Sent?)
             || (InStage(s, t, MarkingCompensated) && PhaseOf(s, t.key).Undone?)
    ensures var s' := Done(WithDb(s, SetStatus(s.db, t.key, Success)), t);
            OnlyAt(s, s', t.key) && s'.recoveries == s.recoveries && TaskMove(PhaseOf(s, t.key), PhaseOf(s', t.key))
  {}

  lemma CompensateAdvances(d: DState, t: TaskId) returns (i: nat)
    requires DInv(d) && InStage(d.s, t, Compensating)
    ensures t.key in d.s.db.outbox
    ensures Advances(d, DState(CompensateOnce(d.s, t, true), d.inbox), i)
  {
    i := TaskPlace(d, t);
    var d' := DState(CompensateOnce(d.s, t, true), d.inbox);
    CompensationMoves(d.s, t);
    TaskAdvances(d, d', t.key, i);
  }

  lemma CompensationMoves(s: State, t: TaskId)
    requires t == TaskId(0, t.key) && t.key in s.db.outbox
    requires InStage(s, t, Compensating) && PhaseOf(s, t.key).Undoing?
    requires !t.key.event.OrderPayment? ==> s.db.outbox[t.key].payload.id in s.db.orders
    ensures var s' := CompensateOnce(s, t, true);
            OnlyAt(s, s', t.key) && s'.recoveries == s.recoveries && TaskMove(PhaseOf(s, t.key), PhaseOf(s', t.key))
  {
    var s' := CompensateOnce(s, t, true);
    assert s'.tasks == s.tasks[t := Task(MarkingCompensated, s.tasks[t].attempt)];
    assert s'.db.outbox == s.db.outbox;
  }

  lemma DeductionAdvances(d: DState, info: OrderInfo) returns (i: nat)
    requires DInv(d) && Message(OrderCreated, info) in d.inbox
    ensures Advances(d, DState(DeductStock(d.s, info, false), d.inbox - {Message(OrderCreated, info)}), i)
    ensures forall r | r in DeductStock(d.s, info, false).recoveries :: !r.ReDrive?
  {
    i := MessagePlace(d, OrderCreated, info);
    var d' := DState(DeductStock(d.s, info, false), d.inbox - {Message(OrderCreated, info)});
    if DeductTx(d.s.db, info).Ok? {
      DeductionWrites(d.s, info, false);
      RowDelivered(d, d', OrderCreated, i);
    } else {
      assert DeductTx(d.s.db, info).error.OutOfStock?;
      FailureDelivered(d, d', OrderCreated, i);
    }
  }

  lemma PaymentAdvances(d: DState, info: OrderInfo) returns (i: nat)
    requires DInv(d) && Message(OrderDeductStock, info) in d.inbox
    ensures Advances(d, DState(Pay(d.s, info, false), d.inbox - {Message(OrderDeductStock, info)}), i)
    ensures forall r | r in Pay(d.s, info, false).recoveries :: !r.ReDrive?
  {
    i := MessagePlace(d, OrderDeductStock, info);
    var d' := DState(Pay(d.s, info, false), d.inbox - {Message(OrderDeductStock, info)});
    PaymentWrites(d.s, info, false);
    if PaymentTx(d.s.db, info).Ok? {
      RowDelivered(d, d', OrderDeductStock, i);
    } else {
      FailureDelivered(d, d', OrderDeductStock, i);
    }
  }

  lemma SuccessAdvances(d: DState, info: OrderInfo) returns (i: nat)
    requires DInv(d) && Message(OrderPayment, info) in d.inbox
    ensures Advances(d, DState(Succeed(d.s, info, false), d.inbox - {Message(OrderPayment, info)}), i)
  {
    i := MessagePlace(d, OrderPayment, info);
    var d' := DState(Succeed(d.s, info, false), d.inbox - {Message(OrderPayment, info)});
    assert SuccessTx(d.s.db, info).Ok?;
    RowDelivered(d, d', OrderPayment, i);
  }

  lemma OwedAdvances(d: DState, r: Recovery) returns (i: nat)
    requires DInv(d) && r in d.s.recoveries
    ensures Advances(d, DState(RecoverOnce(d.s, r, true), d.inbox), i)
  {
    assert RecoveryInv(d.s.db, r);
    i := PlaceOf(d.s, r.info);
    assert OrderOk(d, d.s.book[i]);
    var event := if r.FailDeduct? then OrderDeductStock else OrderPayment;
    assert r == FailOf(event, d.s.book[i]);
    RecoverIsBetter(ViewOf(d, d.s.book[i]), event);
    RecoveryAdvances(d, DState(RecoverOnce(d.s, r, true), d.inbox), event, i);
  }

  lemma StepAdvances(d: DState, step: Step) returns (i: nat)
    requires DInv(d) && DEnabled(d, step) && !Arrival(step)
    ensures Advances(d, DApply(d, step), i)
  {
    match step
    case ConsumeCreated(info, fault) => i := DeductionAdvances(d, info);
    case ConsumeDeductStock(info, fault) => i := PaymentAdvances(d, info);
    case ConsumePayment(info, fault) => i := SuccessAdvances(d, info);
    case Recover(r, ok) => i := OwedAdvances(d, r);
    case _ => i := PollerAdvances(d, step);
  }

  lemma PollerAdvances(d: DState, step: Step) returns (i: nat)
    requires DInv(d) && DEnabled(d, step) && !Arrival(step)
    requires !step.ConsumeCreated? && !step.ConsumeDeductStock? && !step.ConsumePayment? && !step.Recover?
    ensures Advances(d, DApply(d, step), i)
  {
    match step
    case PollInit(poller, keys) => i := PollAdvances(d, keys, Init, Publishing);
    case Publish(t, sent, acked) =>
      i := TaskPlace(d, t);
      PublishAdvances(d, t, i);
    case MarkPublished(t, ok) => i := MarkAdvances(d, t);
    case PollFail(poller, keys) => i := PollAdvances(d, keys, Fail, Compensating);
    case Compensate(t, committed) => i := CompensateAdvances(d, t);
    case MarkCompensated(t, ok) => i := MarkAdvances(d, t);
  }

  lemma ConsumersKeepTopics(s: State, info: OrderInfo, fault: bool)
    ensures DeductStock(s, info, fault).topics == s.topics
    ensures Pay(s, info, fault).topics == s.topics
    ensures Succeed(s, info, fault).topics == s.topics
  {}

  lemma PollersKeepTopics(s: State, t: TaskId, ok: bool)
    requires t in s.tasks && t.key in s.db.outbox && InStage(s, t, Compensating)
    ensures CompensateOnce(s, t, ok).topics == s.topics
  {}

  lemma PublishKeepsTopics(s: State, t: TaskId, sent: bool, acked: bool)
    requires InStage(s, t, Publishing) && t.key in s.db.outbox
    ensures s.topics <= PublishOnce(s, t, sent, acked).topics
  {}

  lemma TopicsGrow(s: State, step: Step)
    requires Enabled(s, step)
    ensures s.topics <= Apply(s, step).topics
  {
    match step
    case Publish(t, sent, acked) => PublishKeepsTopics(s, t, sent, acked);
    case Compensate(t, committed) => PollersKeepTopics(s, t, committed);
    case ConsumeCreated(info, fault) => ConsumersKeepTopics(s, info, fault);
    case ConsumeDeductStock(info, fault) => ConsumersKeepTopics(s, info, fault);
    case ConsumePayment(info, fault) => ConsumersKeepTopics(s, info, fault);
    case Recover(r, ok) => assert RecoverOnce(s, r, ok).topics == s.topics;
    case _ =>
  }

  lemma InboxKept(d: DState, step: Step)
    requires d.inbox <= d.s.topics && DEnabled(d, step)
    ensures DApply(d, step).inbox <= DApply(d, step).s.topics
  {
    TopicsGrow(d.s, step);
    if step.Publish? {
      assert Apply(d.s, step) == PublishOnce(d.s, step.task, step.sent, step.acked);
    }
  }

  lemma OthersOweNothing(s: State, step: Step)
    requires Enabled(s, step) && !step.ConsumeCreated? && !step.ConsumeDeductStock?
    ensures Apply(s, step).recoveries <= s.recoveries
  {
    match step
    case Compensate(t, committed) => assert CompensateOnce(s, t, committed).recoveries == s.recoveries;
    case ConsumePayment(info, fault) => assert Succeed(s, info, fault).recoveries == s.recoveries;
    case Recover(r, ok) => assert RecoverOnce(s, r, ok).recoveries == s.recoveries - multiset{r};
    case _ =>
  }

  lemma NothingReDriven(d: DState, step: Step)
    requires DInv(d) && DEnabled(d, step)
    ensures forall r | r in Apply(d.s, step).recoveries :: !r.ReDrive?
  {
    if step.ConsumeCreated? {
      var _ := DeductionAdvances(d, step.info);
    } else if step.ConsumeDeductStock? {
      var _ := PaymentAdvances(d, step.info);
    } else {
      OthersOweNothing(d.s, step);
      assert forall r | r in Apply(d.s, step).recoveries :: r in d.s.recoveries;
    }
  }

  lemma GentleIsUndisturbed(d: DState, step: Step)
    requires OnePoller(d.s) && DEnabled(d, step)
    ensures Undisturbed(d.s, step)
  {}

  /** Tasks, messages and recoveries belong to orders that have been placed. */
  lemma Owners(d: DState)
    requires DInv(d)
    ensures forall t | t in d.s.tasks :: t.key.id in d.s.db.orders
    ensures forall m | m in d.inbox :: m.info.id in d.s.db.orders
    ensures forall r | r in d.s.recoveries :: r.info.id in d.s.db.orders
    ensures forall k | k in d.s.db.outbox :: k.id in d.s.db.orders
  {
    forall k | k in d.s.db.outbox ensures k.id in d.s.db.orders { assert RowInv(d.s.db, k); }
    forall t | t in d.s.tasks ensures t.key.id in d.s.db.orders { assert TaskInv(d.s, t) && t.key in d.s.db.outbox; }
    forall m | m in d.inbox ensures m.info.id in d.s.db.orders {
      assert MessageInv(d.s.db, m) && Key(m.info.id, m.event) in d.s.db.outbox;
    }
    forall r | r in d.s.recoveries ensures r.info.id in d.s.db.orders { assert RecoveryInv(d.s.db, r); }
  }

  lemma PlaceView(d: DState, info: OrderInfo, o: OrderInfo)
    requires PlaceTx(d.s.db, info).Ok? && o.id != info.id
    ensures ViewOf(DState(Place(d.s, info), d.inbox), o) == ViewOf(d, o)
  {}

  lemma NewView(d: DState, info: OrderInfo)
    requires info.id !in d.s.db.orders && PlaceTx(d.s.db, info).Ok?
    requires forall t | t in d.s.tasks :: t.key.id in d.s.db.orders
    requires forall m | m in d.inbox :: m.info.id in d.s.db.orders
    requires forall r | r in d.s.recoveries :: r.info.id in d.s.db.orders
    requires forall k | k in d.s.db.outbox :: k.id in d.s.db.orders
    ensures var none := Lane(Absent, false, 0);
            ViewOf(DState(Place(d.s, info), d.inbox), info) == View(Lane(Ready, false, 0), none, none, none)
  {
    assert FailDeduct(info) !in d.s.recoveries && FailPayment(info) !in d.s.recoveries;
  }

  /** A new order starts in shape and disturbs no other. */
  lemma NewOrderOk(d: DState, info: OrderInfo)
    requires DInv(d) && Orderable(d.s, info)
    ensures AllOk(DState(Place(d.s, info), d.inbox))
  {
    if PlaceTx(d.s.db, info).Ok? {
      assert OrderOk(DState(Place(d.s, info), d.inbox), info) by {
        Owners(d);
        NewView(d, info);
      }
      OldOrdersOk(d, info);
    }
  }

  lemma OldOrdersOk(d: DState, info: OrderInfo)
    requires AllOk(d) && BookInv(d.s) && info.id !in d.s.db.orders && PlaceTx(d.s.db, info).Ok?
    requires OrderOk(DState(Place(d.s, info), d.inbox), info)
    ensures AllOk(DState(Place(d.s, info), d.inbox))
  {
    var d' := DState(Place(d.s, info), d.inbox);
    forall j | 0 <= j < |d'.s.book| ensures OrderOk(d', d'.s.book[j]) {
      if j < |d.s.book| {
        assert OrderOk(d, d.s.book[j]) && Placed(d.s.db, d.s.book[j]);
        PlaceView(d, info, d.s.book[j]);
      }
    }
  }

  lemma ArrivalOk(d: DState, step: Step)
    requires DInv(d) && DEnabled(d, step) && Arrival(step)
    ensures AllOk(DApply(d, step))
  {
    if step.PlaceOrder? {
      NewOrderOk(d, step.info);
    } else {
      WalletsOk(d, DApply(d, step));
    }
  }

  lemma WalletsOk(d: DState, d': DState)
    requires AllOk(d) && d' == d.(s := d.s.(db := d.s.db.(wallets := d'.s.db.wallets, points := d'.s.db.points)))
    ensures AllOk(d')
  {
    forall j | 0 <= j < |d.s.book| ensures OrderOk(d', d.s.book[j]) {
      assert OrderOk(d, d.s.book[j]);
      SameView(d, d', d.s.book[j]);
    }
  }

  lemma SameView(d: DState, d': DState, o: OrderInfo)
    requires d'.s.db.outbox == d.s.db.outbox && d'.s.tasks == d.s.tasks && d'.s.recoveries == d.s.recoveries
    requires d'.inbox == d.inbox
    ensures ViewOf(d', o) == ViewOf(d, o)
  {
    SameLane(d, d', o, OrderCreated);
    SameLane(d, d', o, OrderDeductStock);
    SameLane(d, d', o, OrderPayment);
    SameLane(d, d', o, OrderSuccess);
  }

  lemma SameLane(d: DState, d': DState, o: OrderInfo, event: EventType)
    requires d'.s.db.outbox == d.s.db.outbox && d'.s.tasks == d.s.tasks && d'.s.recoveries == d.s.recoveries
    requires d'.inbox == d.inbox
    ensures LaneOf(d', o, event) == LaneOf(d, o, event)
  {}

  /** Every step keeps the drain in shape, and every step but an arrival shortens it. */
  lemma StepDrains(d: DState, step: Step)
    requires DInv(d) && DEnabled(d, step)
    ensures DInv(DApply(d, step))
    ensures !Arrival(step) ==> Measure(DApply(d, step)) < Measure(d)
  {
    StepInv(d.s, step);
    StepBookInv(d.s, step);
    GentleIsUndisturbed(d, step);
    StepOnePoller(d.s, step);
    InboxKept(d, step);
    NothingReDriven(d, step);
    if Arrival(step) {
      ArrivalOk(d, step);
    } else {
      var i := StepAdvances(d, step);
      AdvanceDrains(d, DApply(d, step), i);
    }
    assert DApply(d, step).s == Apply(d.s, step);
  }

  // ------------------------------------------------------------------------------- runs

  predicate DLegal(d: DState, steps: seq<Step>)
    decreases |steps|
  {
    steps == [] || (DEnabled(d, steps[0]) && DLegal(DApply(d, steps[0]), steps[1..]))
  }

  function DExec(d: DState, steps: seq<Step>): DState
    requires DLegal(d, steps)
    decreases |steps|
  {
    if steps == [] then d else DExec(DApply(d, steps[0]), steps[1..])
  }

  predicate NoArrivals(steps: seq<Step>) {
    forall i | 0 <= i < |steps| :: !Arrival(steps[i])
  }

  lemma {:induction false} DRunInv(d: DState, steps: seq<Step>)
    requires DInv(d) && DLegal(d, steps)
    ensures DInv(DExec(d, steps))
    decreases |steps|
  {
    if steps != [] {
      StepDrains(d, steps[0]);
      DRunInv(DApply(d, steps[0]), steps[1..]);
    }
  }

  /** After any failure-free run, with orders and charges arriving in between, the steps that
      are left when nothing more arrives are at most the measure, in whatever order. */
  lemma DrainIsBounded(s: State, before: seq<Step>, steps: seq<Step>)
    requires Initial(s) && DLegal(DState(s, {}), before)
    requires DLegal(DExec(DState(s, {}), before), steps) && NoArrivals(steps)
    ensures |steps| <= Measure(DExec(DState(s, {}), before))
  {
    InitialInv(s);
    DRunInv(DState(s, {}), before);
    Shortens(DExec(DState(s, {}), before), steps);
    MeasureNonNegative(DExec(DExec(DState(s, {}), before), steps));
  }

  lemma {:induction false} Shortens(d: DState, steps: seq<Step>)
    requires DInv(d) && DLegal(d, steps) && NoArrivals(steps)
    ensures |steps| + Measure(DExec(d, steps)) <= Measure(d)
    decreases |steps|
  {
    if steps != [] {
      StepDrains(d, steps[0]);
      assert forall i | 0 <= i < |steps[1..]| :: steps[1..][i] == steps[i + 1];
      Shortens(DApply(d, steps[0]), steps[1..]);
    }
  }

  // ------------------------------------------------------- the drain stops when complete

  predicate ViewComplete(v: View) {
    && v.created.phase.Marked?
    && (v.deduct.phase.Marked? || v.deduct.phase.Closed?)
    && (v.deduct.phase.Marked? ==> v.payment.phase.Marked? || v.payment.phase.Closed?)
    && (v.payment.phase.Marked? ==> v.success.phase.Marked?)
  }

  lemma CompleteView(d: DState, o: OrderInfo)
    requires Inv(d.s) && ViewOk(ViewOf(d, o))
    ensures Complete(d.s.db, o.id) <==> ViewComplete(ViewOf(d, o))
  {
    assert ChainInv(d.s.db, o.id);
    assert RowInv(d.s.db, Key(o.id, OrderCreated)) && RowInv(d.s.db, Key(o.id, OrderDeductStock));
    assert RowInv(d.s.db, Key(o.id, OrderPayment)) && RowInv(d.s.db, Key(o.id, OrderSuccess));
  }

  lemma RankZero(v: View)
    requires ViewOk(v) && ViewComplete(v) && !v.success.phase.Closed?
    ensures ViewRank(v) == 0
  {}

  /** A batch of the size the query asks for. */
  lemma {:induction false} SomeOf(all: set<Key>, n: nat) returns (some: set<Key>)
    requires n <= |all|
    ensures some <= all && |some| == n
  {
    if n == 0 {
      some := {};
    } else {
      var k :| k in all;
      var rest := SomeOf(all - {k}, n - 1);
      some := rest + {k};
    }
  }

  lemma PollPossible(d: DState, status: EventStatus) returns (step: Step)
    requires d.s.tasks == map[] && WithStatus(d.s.db.outbox, status) != {} && (status.Init? || status.Fail?)
    ensures DEnabled(d, step) && !Arrival(step)
  {
    var all := WithStatus(d.s.db.outbox, status);
    var keys := SomeOf(all, Min(BATCH, |all|));
    assert |keys| > 0;
    step := if status.Init? then PollInit(0, keys) else PollFail(0, keys);
  }

  lemma TaskPossible(d: DState, t: TaskId) returns (step: Step)
    requires DInv(d) && t in d.s.tasks
    ensures DEnabled(d, step) && !Arrival(step)
  {
    var i := TaskPlace(d, t);
    match d.s.tasks[t].stage
    case Publishing => step := Publish(t, !t.key.event.OrderSuccess?, true);
    case MarkingPublished => step := MarkPublished(t, true);
    case Compensating => step := Compensate(t, true);
    case MarkingCompensated => step := MarkCompensated(t, true);
  }

  lemma DeliveryPossible(d: DState, m: Message) returns (step: Step)
    requires DInv(d) && m in d.inbox
    ensures DEnabled(d, step) && !Arrival(step)
  {
    var i := MessagePlace(d, m.event, m.info);
    match m.event
    case OrderCreated => step := ConsumeCreated(m.info, false);
    case OrderDeductStock => step := ConsumeDeductStock(m.info, false);
    case OrderPayment => step := ConsumePayment(m.info, false);
  }

  /** As long as some order is not complete, some step of the drain can be taken. */
  lemma Progress(d: DState) returns (step: Step)
    requires DInv(d) && !AllComplete(d.s.db)
    ensures DEnabled(d, step) && !Arrival(step)
  {
    if t :| t in d.s.tasks {
      step := TaskPossible(d, t);
    } else if m :| m in d.inbox {
      step := DeliveryPossible(d, m);
    } else if r :| r in d.s.recoveries {
      step := Recover(r, true);
    } else if WithStatus(d.s.db.outbox, Init) != {} {
      step := PollPossible(d, Init);
    } else {
      if WithStatus(d.s.db.outbox, Fail) == {} { NothingLeft(d); }
      step := PollPossible(d, Fail);
    }
  }

  lemma NothingLeft(d: DState)
    requires DInv(d) && d.s.tasks == map[] && d.inbox == {} && d.s.recoveries == multiset{}
    requires WithStatus(d.s.db.outbox, Init) == {} && WithStatus(d.s.db.outbox, Fail) == {}
    ensures AllComplete(d.s.db)
  {
    forall k | k in d.s.db.outbox ensures d.s.db.outbox[k].status.Success? {
      assert k !in WithStatus(d.s.db.outbox, Init) && k !in WithStatus(d.s.db.outbox, Fail);
    }
    forall id | id in d.s.db.orders ensures Complete(d.s.db, id) {
      assert InBook(d.s.book, id);
      var i :| 0 <= i < |d.s.book| && d.s.book[i].id == id;
      assert OrderOk(d, d.s.book[i]);
      NothingLeftOf(d, d.s.book[i]);
    }
  }

  lemma NothingLeftOf(d: DState, o: OrderInfo)
    requires Inv(d.s) && OrderOk(d, o) && d.s.tasks == map[] && d.inbox == {} && d.s.recoveries == multiset{}
    requires forall k | k in d.s.db.outbox :: d.s.db.outbox[k].status.Success?
    ensures Complete(d.s.db, o.id)
  {
    assert RowInv(d.s.db, Key(o.id, OrderCreated)) && RowInv(d.s.db, Key(o.id, OrderSuccess));
    SettledView(ViewOf(d, o));
    CompleteView(d, o);
  }

  predicate Settled(l: Lane) {
    (l.phase.Absent? || l.phase.Marked? || l.phase.Closed? || l.phase.Broken?) && !l.waits && l.owes == 0
  }

  lemma SettledView(v: View)
    requires ViewOk(v) && Settled(v.created) && Settled(v.deduct) && Settled(v.payment) && Settled(v.success)
    requires !v.created.phase.Closed? && !v.success.phase.Closed?
    ensures ViewComplete(v)
  {}

  /** The steps are a whole drain: nothing arrives and every order ends complete. */
  predicate DrainsAll(d: DState, steps: seq<Step>) {
    DLegal(d, steps) && NoArrivals(steps) && AllComplete(DExec(d, steps).s.db)
  }

  lemma FirstThenRest(d: DState, step: Step, rest: seq<Step>)
    requires DEnabled(d, step) && !Arrival(step) && DrainsAll(DApply(d, step), rest)
    ensures DrainsAll(d, [step] + rest)
  {
    assert ([step] + rest)[0] == step && ([step] + rest)[1..] == rest;
  }

  /** Every failure-free drain can be carried to its end, and at its end every order is
      complete. */
  lemma {:induction false} DrainCompletes(d: DState) returns (steps: seq<Step>)
    requires DInv(d)
    ensures DrainsAll(d, steps)
    decreases Measure(d)
  {
    if AllComplete(d.s.db) {
      steps := [];
    } else {
      var step := Progress(d);
      MoreToDo(d, step);
      var rest := DrainCompletes(DApply(d, step));
      steps := [step] + rest;
      FirstThenRest(d, step, rest);
    }
  }

  lemma MoreToDo(d: DState, step: Step)
    requires DInv(d) && DEnabled(d, step) && !Arrival(step)
    ensures DInv(DApply(d, step)) && 0 <= Measure(DApply(d, step)) < Measure(d)
  {
    StepDrains(d, step);
    MeasureNonNegative(DApply(d, step));
  }

  /** A drain goes on exactly as long as some order is not complete. */
  lemma StopsExactlyWhenComplete(s: State, before: seq<Step>)
    requires Initial(s) && DLegal(DState(s, {}), before)
    ensures var d := DExec(DState(s, {}), before);
            AllComplete(d.s.db) <==> forall step :: DEnabled(d, step) ==> Arrival(step)
  {
    InitialInv(s);
    DRunInv(DState(s, {}), before);
    var d := DExec(DState(s, {}), before);
    if AllComplete(d.s.db) {
      NoRankLeft(d);
      forall step | DEnabled(d, step) ensures Arrival(step) {
        StepDrains(d, step);
        MeasureNonNegative(DApply(d, step));
      }
    } else {
      var step := Progress(d);
    }
  }

  lemma NoRankLeft(d: DState)
    requires DInv(d) && AllComplete(d.s.db)
    ensures Measure(d) == 0
  {
    forall i | 0 <= i < |d.s.book| ensures OrderRank(d)(d.s.book[i]) == 0 {
      var o := d.s.book[i];
      assert Placed(d.s.db, o) && OrderOk(d, o);
      CompleteView(d, o);
      assert RowInv(d.s.db, Key(o.id, OrderSuccess));
      RankZero(ViewOf(d, o));
    }
    SumZero(d.s.book, OrderRank(d));
  }

  /** A drain is an undisturbed run of the saga. */
  lemma {:induction false} DrainIsARun(d: DState, steps: seq<Step>)
    requires DInv(d) && DLegal(d, steps)
    ensures Legal(d.s, steps) && UndisturbedRun(d.s, steps) && Exec(d.s, steps) == DExec(d, steps).s
    decreases |steps|
  {
    if steps != [] {
      GentleIsUndisturbed(d, steps[0]);
      StepDrains(d, steps[0]);
      DrainIsARun(DApply(d, steps[0]), steps[1..]);
    }
  }

  /** So when a drain stops, the stock that is gone is exactly the units of the PAID orders. */
  lemma DrainBalances(s: State, steps: seq<Step>, p: nat)
    requires Initial(s) && DLegal(DState(s, {}), steps)
    requires forall step :: DEnabled(DExec(DState(s, {}), steps), step) ==> Arrival(step)
    requires p in DExec(DState(s, {}), steps).s.db.stock
    ensures var e := DExec(DState(s, {}), steps).s;
            p in s.db.stock && s.db.stock[p] - e.db.stock[p] == Sum(e.book, PaidUnits(e.db, p))
  {
    InitialInv(s);
    DrainIsARun(DState(s, {}), steps);
    StopsExactlyWhenComplete(s, steps);
    UndisturbedBooksBalance(s, steps, p);
  }
}
