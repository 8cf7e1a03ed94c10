/** What holds after every run of the saga: each stage takes effect at most once, the two
    ends of an order exclude each other, and a restore happens only where it should. */
module SagaTheorems {
  import opened Domain
  import opened Saga
  import opened SagaInvariant

  lemma Reached(s: State, steps: seq<Step>)
    requires Initial(s) && Legal(s, steps)
    ensures Inv(Exec(s, steps)) && BookInv(Exec(s, steps))
  {
    InitialInv(s);
    RunInv(s, steps);
  }

  /** However often messages are delivered, an order's stock is deducted at most once, its
      points are used at most once and it is set PAID at most once; and each of these has
      happened exactly if the row of its stage stands in the outbox as born INIT. */
  lemma EffectivelyOnce(s: State, steps: seq<Step>, id: nat)
    requires Initial(s) && Legal(s, steps)
    ensures var e := Exec(s, steps);
            && e.log[StockDeducted(id)] == (if BornInit(e.db, id, OrderDeductStock) then 1 else 0)
            && e.log[PointsUsed(id)] == (if BornInit(e.db, id, OrderPayment) then 1 else 0)
            && e.log[MarkedPaid(id)] == (if HasRow(e.db, id, OrderSuccess) then 1 else 0)
  {
    Reached(s, steps);
    assert EffectInv(Exec(s, steps), id);
  }

  /** PAID rests on the whole chain, FAILED on a deduction that never happened. */
  lemma CausalChain(s: State, steps: seq<Step>, id: nat)
    requires Initial(s) && Legal(s, steps) && id in Exec(s, steps).db.orders
    ensures var e := Exec(s, steps);
            && (e.db.orders[id].status.Paid? ==>
                  && HasRow(e.db, id, OrderSuccess) && BornInit(e.db, id, OrderPayment)
                  && BornInit(e.db, id, OrderDeductStock) && BornInit(e.db, id, OrderCreated)
                  && e.log[StockDeducted(id)] == e.log[PointsUsed(id)] == 1 && e.log[StockRestored(id)] == 0)
            && (e.db.orders[id].status.Failed? ==>
                  && BornFail(e.db, id, OrderDeductStock)
                  && !HasRow(e.db, id, OrderPayment) && !HasRow(e.db, id, OrderSuccess)
                  && e.log[StockDeducted(id)] == e.log[PointsUsed(id)] == e.log[StockRestored(id)] == 0)
  {
    Reached(s, steps);
    var e := Exec(s, steps);
    assert EffectInv(e, id) && ChainInv(e.db, id) && RowInv(e.db, Key(id, OrderCreated));
  }

  // ------------------------------------------------------------------- what a run keeps

  lemma {:induction false} LogGrows(s: State, steps: seq<Step>)
    requires Legal(s, steps)
    ensures s.log <= Exec(s, steps).log
    decreases |steps|
  {
    if steps != [] {
      StepLogGrows(s, steps[0]);
      LogGrows(Apply(s, steps[0]), steps[1..]);
    }
  }

  lemma StepLogGrows(s: State, step: Step)
    requires Enabled(s, step)
    ensures s.log <= Apply(s, step).log
  {
    match step
    case Publish(t, sent, acked) => PublishLogs(s, t, sent, acked);
    case Compensate(t, committed) => CompensationLogs(s, t, committed);
    case ConsumeCreated(info, fault) => ConsumersLog(s, info, fault);
    case ConsumeDeductStock(info, fault) => ConsumersLog(s, info, fault);
    case ConsumePayment(info, fault) => ConsumersLog(s, info, fault);
    case _ =>
  }

  lemma PublishLogs(s: State, t: TaskId, sent: bool, acked: bool)
    requires InStage(s, t, Publishing) && t.key in s.db.outbox
    ensures s.log <= PublishOnce(s, t, sent, acked).log
  {}

  lemma CompensationLogs(s: State, t: TaskId, committed: bool)
    requires InStage(s, t, Compensating) && t.key in s.db.outbox
    ensures s.log <= CompensateOnce(s, t, committed).log
  {}

  lemma ConsumersLog(s: State, info: OrderInfo, fault: bool)
    ensures s.log <= DeductStock(s, info, fault).log
    ensures s.log <= Pay(s, info, fault).log
    ensures s.log <= Succeed(s, info, fault).log
  {}

  /** Orders stay, and none becomes pending again. */
  predicate StaysSettled(db: Db, db': Db, id: nat) {
    id in db.orders ==>
      id in db'.orders && (!db.orders[id].status.PendingPayment? ==> !db'.orders[id].status.PendingPayment?)
  }

  lemma StepStaysSettled(s: State, step: Step, id: nat)
    requires Enabled(s, step)
    ensures StaysSettled(s.db, Apply(s, step).db, id)
  {
    match step
    case PlaceOrder(info) => PlaceSettles(s, info, id);
    case Publish(t, sent, acked) => PublishSettles(s, t, sent, acked);
    case Compensate(t, committed) => CompensationSettles(s, t, committed, id);
    case ConsumeCreated(info, fault) => DeductionWrites(s, info, fault);
    case ConsumeDeductStock(info, fault) => PaymentWrites(s, info, fault);
    case ConsumePayment(info, fault) => SuccessSettles(s, info, fault, id);
    case Recover(r, ok) => RecoverySettles(s, r, ok);
    case _ =>
  }

  lemma PlaceSettles(s: State, info: OrderInfo, id: nat)
    requires info.id !in s.db.orders
    ensures StaysSettled(s.db, Place(s, info).db, id)
  {}

  lemma PublishSettles(s: State, t: TaskId, sent: bool, acked: bool)
    requires InStage(s, t, Publishing) && t.key in s.db.outbox
    ensures PublishOnce(s, t, sent, acked).db == s.db
  {}

  lemma RecoverySettles(s: State, r: Recovery, ok: bool)
    ensures RecoverOnce(s, r, ok).db.orders == s.db.orders
  {}

  lemma CompensationSettles(s: State, t: TaskId, committed: bool, id: nat)
    requires InStage(s, t, Compensating) && t.key in s.db.outbox
    ensures StaysSettled(s.db, CompensateOnce(s, t, committed).db, id)
  {}

  lemma SuccessSettles(s: State, info: OrderInfo, fault: bool, id: nat)
    ensures StaysSettled(s.db, Succeed(s, info, fault).db, id)
  {}

  /** Which of PAID and FAILED an order has can be read off rows that never change again. */
  lemma StepKeepsTerminal(s: State, step: Step, id: nat)
    requires Inv(s) && Enabled(s, step) && id in s.db.orders && !s.db.orders[id].status.PendingPayment?
    ensures id in Apply(s, step).db.orders && Apply(s, step).db.orders[id].status == s.db.orders[id].status
  {
    StepInv(s, step);
    StepStaysSettled(s, step, id);
    RowsMove(s, step, Key(id, OrderDeductStock));
    RowsMove(s, step, Key(id, OrderSuccess));
    TerminalKept(s, Apply(s, step), id);
  }

  lemma TerminalKept(s: State, s': State, id: nat)
    requires Inv(s) && Inv(s') && id in s.db.orders && id in s'.db.orders
    requires !s.db.orders[id].status.PendingPayment? && !s'.db.orders[id].status.PendingPayment?
    requires RowMoved(s.db, s'.db, Key(id, OrderDeductStock)) && RowMoved(s.db, s'.db, Key(id, OrderSuccess))
    ensures s'.db.orders[id].status == s.db.orders[id].status
  {
    assert EffectInv(s, id) && ChainInv(s.db, id) && EffectInv(s', id) && ChainInv(s'.db, id);
  }

  /** Which of PAID and FAILED an order reaches, it keeps through any further run. */
  lemma {:induction false} TerminalStatusIsFinal(s: State, steps: seq<Step>, id: nat)
    requires Inv(s) && Legal(s, steps) && id in s.db.orders && !s.db.orders[id].status.PendingPayment?
    ensures id in Exec(s, steps).db.orders && Exec(s, steps).db.orders[id].status == s.db.orders[id].status
    decreases |steps|
  {
    if steps != [] {
      StepKeepsTerminal(s, steps[0], id);
      StepInv(s, steps[0]);
      TerminalStatusIsFinal(Apply(s, steps[0]), steps[1..], id);
    }
  }

  /** Stock is restored only for an order whose deduction committed and whose payment failed,
      and however the run goes on, that order is never charged and never PAID or FAILED. */
  lemma CompensationIsSound(s: State, steps: seq<Step>, later: seq<Step>, id: nat)
    requires Initial(s) && Legal(s, steps) && Legal(Exec(s, steps), later)
    requires Exec(s, steps).log[StockRestored(id)] > 0
    ensures var e := Exec(Exec(s, steps), later);
            && e.log[StockDeducted(id)] == 1 && BornFail(e.db, id, OrderPayment)
            && e.log[PointsUsed(id)] == 0 && e.log[MarkedPaid(id)] == 0
            && id in e.db.orders && e.db.orders[id].status.PendingPayment?
  {
    Reached(s, steps);
    RunInv(Exec(s, steps), later);
    LogGrows(Exec(s, steps), later);
    var e := Exec(Exec(s, steps), later);
    assert EffectInv(e, id) && ChainInv(e.db, id) && e.log[StockRestored(id)] > 0;
  }

  // ------------------------------------------------------------ the status of outbox rows

  /** The moves a row can make. */
  predicate Moves(event: EventType, born: EventStatus, before: EventStatus, after: EventStatus) {
    || before == after
    || (born.Init? && before.Init? && after.Success?)
    || (born.Init? && event.OrderCreated? && before.Success? && after.Init?)
    || (born.Fail? && !before.Init? && !after.Init?)
  }

  predicate RowMoved(db: Db, db': Db, k: Key) {
    if k in db.outbox then
      && k in db'.outbox
      && db'.outbox[k].payload == db.outbox[k].payload && db'.outbox[k].born == db.outbox[k].born
      && Moves(k.event, db.outbox[k].born, db.outbox[k].status, db'.outbox[k].status)
    else
      k in db'.outbox ==> db'.outbox[k].status == db'.outbox[k].born
  }

  /** A row is never removed or rewritten and never goes from INIT to FAIL; only
      `order.created` goes back to INIT. */
  lemma RowsMove(s: State, step: Step, k: Key)
    requires Inv(s) && Enabled(s, step)
    ensures RowMoved(s.db, Apply(s, step).db, k)
  {
    match step
    case PlaceOrder(info) => PlaceMoves(s, info, k);
    case Publish(t, sent, acked) => assert PublishOnce(s, t, sent, acked).db == s.db;
    case MarkPublished(t, ok) => MarkMoves(s, t, Success, k);
    case Compensate(t, committed) => CompensateMoves(s, t, committed);
    case MarkCompensated(t, ok) => MarkMoves(s, t, Success, k);
    case GiveUp(t, ok) => MarkMoves(s, t, Fail, k);
    case ConsumeCreated(info, fault) => DeductionMoves(s, info, fault, k);
    case ConsumeDeductStock(info, fault) => PaymentMoves(s, info, fault, k);
    case ConsumePayment(info, fault) => SuccessMoves(s, info, fault, k);
    case Recover(r, ok) => RecoverMoves(s, r, ok, k);
    case _ =>
  }

  lemma PlaceMoves(s: State, info: OrderInfo, k: Key)
    requires Inv(s) && info.id !in s.db.orders
    ensures RowMoved(s.db, Place(s, info).db, k)
  {
    assert ChainInv(s.db, info.id);
  }

  lemma MarkMoves(s: State, t: TaskId, status: EventStatus, k: Key)
    requires Inv(s) && t in s.tasks
    requires match s.tasks[t].stage
             case MarkingPublished => status.Success?
             case MarkingCompensated => status.Success?
             case GivingUp => status.Fail?
             case _ => false
    ensures RowMoved(s.db, WithDb(s, SetStatus(s.db, t.key, status)).db, k)
  {
    assert TaskInv(s, t) && RowInv(s.db, t.key);
  }

  lemma CompensateMoves(s: State, t: TaskId, committed: bool)
    requires InStage(s, t, Compensating) && t.key in s.db.outbox
    ensures CompensateOnce(s, t, committed).db.outbox == s.db.outbox
  {}

  lemma RecoverMoves(s: State, r: Recovery, ok: bool, k: Key)
    requires Inv(s) && r in s.recoveries
    ensures RowMoved(s.db, RecoverOnce(s, r, ok).db, k)
  {
    assert RecoveryInv(s.db, r) && RowInv(s.db, Key(r.info.id, OrderCreated));
  }

  /** A consumer touches no row but the one it inserts. */
  lemma DeductionMoves(s: State, info: OrderInfo, fault: bool, k: Key)
    ensures RowMoved(s.db, DeductStock(s, info, fault).db, k)
  {
    DeductionWrites(s, info, fault);
  }

  lemma PaymentMoves(s: State, info: OrderInfo, fault: bool, k: Key)
    ensures RowMoved(s.db, Pay(s, info, fault).db, k)
  {
    PaymentWrites(s, info, fault);
  }

  lemma SuccessMoves(s: State, info: OrderInfo, fault: bool, k: Key)
    ensures RowMoved(s.db, Succeed(s, info, fault).db, k)
  {}

  /** After any run, what is on a topic was born INIT: a failed stage is never published. */
  lemma OnlyCommittedStagesArePublished(s: State, steps: seq<Step>, m: Message)
    requires Initial(s) && Legal(s, steps) && m in Exec(s, steps).topics
    ensures var e := Exec(s, steps);
            && BornInit(e.db, m.info.id, m.event) && e.db.outbox[Key(m.info.id, m.event)].payload == m.info
            && Known(e.db, m.info)
  {
    Reached(s, steps);
    Delivered(Exec(s, steps), m.event, m.info);
    assert MessageInv(Exec(s, steps).db, m);
  }

  // -------------------------------------------------------------------- attempts per pass

  function EmitsLeft(s: State, t: TaskId): nat {
    if InStage(s, t, Publishing) && s.tasks[t].attempt < ATTEMPTS then ATTEMPTS - s.tasks[t].attempt else 0
  }

  function RestoresLeft(s: State, t: TaskId): nat {
    if InStage(s, t, Compensating) && s.tasks[t].attempt < ATTEMPTS then ATTEMPTS - s.tasks[t].attempt
    else if InStage(s, t, MarkingCompensated) && s.tasks[t].attempt < ATTEMPTS then ATTEMPTS - s.tasks[t].attempt - 1
    else 0
  }

  predicate AttemptInv(s: State, t: TaskId) {
    && s.log[Emitted(t)] + EmitsLeft(s, t) <= ATTEMPTS * s.log[Polled(t)]
    && s.log[RestoredBy(t)] + RestoresLeft(s, t) <= ATTEMPTS * s.log[Polled(t)]
  }

  lemma StepAttempts(s: State, step: Step, t: TaskId)
    requires Inv(s) && Enabled(s, step) && AttemptInv(s, t)
    ensures AttemptInv(Apply(s, step), t)
  {
    assert forall u: TaskId :: TaskInv(s, u);
    match step
    case PollInit(poller, keys) => PollAttempts(s, poller, keys, Publishing, t);
    case PollFail(poller, keys) => PollAttempts(s, poller, keys, Compensating, t);
    case Publish(u, sent, acked) => PublishAttempts(s, u, sent, acked, t);
    case Compensate(u, committed) => CompensateAttempts(s, u, committed, t);
    case MarkPublished(u, ok) => EndAttempts(s, if ok then WithDb(s, SetStatus(s.db, u.key, Success)) else s, u, t);
    case MarkCompensated(u, ok) =>
      if ok { EndAttempts(s, WithDb(s, SetStatus(s.db, u.key, Success)), u, t); } else { RetryAttempts(s, u, t); }
    case GiveUp(u, ok) => EndAttempts(s, if ok then WithDb(s, SetStatus(s.db, u.key, Fail)) else s, u, t);
    case Abandon(u) => EndAttempts(s, s, u, t);
    case ConsumeCreated(info, fault) => DeductionSendsNothing(s, info, fault, t);
    case ConsumeDeductStock(info, fault) => PaymentSendsNothing(s, info, fault, t);
    case ConsumePayment(info, fault) => SuccessSendsNothing(s, info, fault, t);
    case Recover(r, ok) =>
      var s' := RecoverOnce(s, r, ok);
      assert s' == s.(db := s'.db, recoveries := s.recoveries - multiset{r});
    case _ =>
  }

  lemma PublishAttempts(s: State, u: TaskId, sent: bool, acked: bool, t: TaskId)
    requires TaskInv(s, u) && InStage(s, u, Publishing) && u.key in s.db.outbox && AttemptInv(s, t)
    ensures AttemptInv(PublishOnce(s, u, sent, acked), t)
  {
    if u == t { SentAgain(s, t, sent, acked); } else { SentOther(s, u, sent, acked, t); }
  }

  lemma SentAgain(s: State, t: TaskId, sent: bool, acked: bool)
    requires TaskInv(s, t) && InStage(s, t, Publishing) && t.key in s.db.outbox && AttemptInv(s, t)
    ensures AttemptInv(PublishOnce(s, t, sent, acked), t)
  {}

  lemma SentOther(s: State, u: TaskId, sent: bool, acked: bool, t: TaskId)
    requires InStage(s, u, Publishing) && u.key in s.db.outbox && AttemptInv(s, t) && u != t
    ensures AttemptInv(PublishOnce(s, u, sent, acked), t)
  {}

  lemma CompensateAttempts(s: State, u: TaskId, committed: bool, t: TaskId)
    requires TaskInv(s, u) && InStage(s, u, Compensating) && u.key in s.db.outbox && AttemptInv(s, t)
    ensures AttemptInv(CompensateOnce(s, u, committed), t)
  {}

  lemma RetryAttempts(s: State, u: TaskId, t: TaskId)
    requires TaskInv(s, u) && InStage(s, u, MarkingCompensated) && AttemptInv(s, t)
    ensures AttemptInv(RetryCompensation(s, u), t)
  {}

  lemma EndAttempts(s: State, s1: State, u: TaskId, t: TaskId)
    requires AttemptInv(s, t) && s1 == s.(db := s1.db)
    ensures AttemptInv(Done(s1, u), t)
  {}

  lemma DeductionSendsNothing(s: State, info: OrderInfo, fault: bool, t: TaskId)
    requires AttemptInv(s, t)
    ensures AttemptInv(DeductStock(s, info, fault), t)
  {
    NothingSent(s, DeductStock(s, info, fault), t);
  }

  lemma PaymentSendsNothing(s: State, info: OrderInfo, fault: bool, t: TaskId)
    requires AttemptInv(s, t)
    ensures AttemptInv(Pay(s, info, fault), t)
  {
    NothingSent(s, Pay(s, info, fault), t);
  }

  lemma SuccessSendsNothing(s: State, info: OrderInfo, fault: bool, t: TaskId)
    requires AttemptInv(s, t)
    ensures AttemptInv(Succeed(s, info, fault), t)
  {
    NothingSent(s, Succeed(s, info, fault), t);
  }

  lemma NothingSent(s: State, s': State, t: TaskId)
    requires AttemptInv(s, t) && s'.tasks == s.tasks
    requires s'.log[Polled(t)] == s.log[Polled(t)] && s'.log[Emitted(t)] == s.log[Emitted(t)]
    requires s'.log[RestoredBy(t)] == s.log[RestoredBy(t)]
    ensures AttemptInv(s', t)
  {}

  lemma PollAttempts(s: State, poller: nat, keys: set<Key>, stage: Stage, t: TaskId)
    requires Idle(s, poller) && AttemptInv(s, t) && (stage.Publishing? || stage.Compensating?)
    ensures AttemptInv(WithTasks(s, poller, keys, stage), t)
  {
    var read := set k | k in keys :: Polled(TaskId(poller, k));
    assert multiset(read)[Polled(t)] == (if t.poller == poller && t.key in keys then 1 else 0);
    assert multiset(read)[Emitted(t)] == 0 && multiset(read)[RestoredBy(t)] == 0;
  }

  lemma {:induction false} AttemptsKept(s: State, steps: seq<Step>, t: TaskId)
    requires Inv(s) && AttemptInv(s, t) && Legal(s, steps)
    ensures AttemptInv(Exec(s, steps), t)
    decreases |steps|
  {
    if steps != [] {
      StepInv(s, steps[0]);
      StepAttempts(s, steps[0], t);
      AttemptsKept(Apply(s, steps[0]), steps[1..], t);
    }
  }

  /** For each time a poller has read a row, it has sent it at most four times and restored
      its stock at most four times. */
  lemma AttemptsAreBounded(s: State, steps: seq<Step>, t: TaskId)
    requires Initial(s) && Legal(s, steps)
    ensures Exec(s, steps).log[Emitted(t)] <= 4 * Exec(s, steps).log[Polled(t)]
    ensures Exec(s, steps).log[RestoredBy(t)] <= 4 * Exec(s, steps).log[Polled(t)]
  {
    InitialInv(s);
    AttemptsKept(s, steps, t);
  }
}
