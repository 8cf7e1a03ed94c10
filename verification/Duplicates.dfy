/** What a second delivery of `order.created` does, and what a slow mark does to a re-drive. */
module Duplicates {
  import opened Domain
  import opened Saga
  import opened SagaInvariant
  import opened Handlers
  import opened Poller

  function Created(info: OrderInfo): Key {
    Key(info.id, OrderCreated)
  }

  /** The delivery finds too little stock: its FAIL row is refused by the unique key. */
  predicate RefusedForGood(db: Db, info: OrderInfo, fault: bool) {
    !fault && Deducted(db.stock, info.items) == Err(OutOfStock)
  }

  lemma CreatedRow(s: State, info: OrderInfo)
    requires Inv(s) && Message(OrderCreated, info) in s.topics
    ensures Created(info) in s.db.outbox
    ensures || s.db.outbox[Created(info)] == Row(info, Init, Init)
            || s.db.outbox[Created(info)] == Row(info, Success, Init)
  {
    assert MessageInv(s.db, Message(OrderCreated, info)) && RowInv(s.db, Created(info));
  }

  lemma NotDeductedAgain(s: State, info: OrderInfo, fault: bool)
    requires HasRow(s.db, info.id, OrderDeductStock)
    ensures var r := Attempt(fault, DeductTx(s.db, info));
            && r.Err?
            && (r == Err(OutOfStock) <==> RefusedForGood(s.db, info, fault))
  {
  }

  /** Once the deduction has its row, a second delivery with its recovery written leaves every
      table as it was exactly if `order.created` waits to be published anyway or the stock no
      longer covers the order; otherwise it sends `order.created` round again. */
  lemma SecondDelivery(s: State, info: OrderInfo, fault: bool)
    requires Inv(s) && Message(OrderCreated, info) in s.topics && HasRow(s.db, info.id, OrderDeductStock)
    ensures Created(info) in s.db.outbox
    ensures var steps := DeductSteps(s.db, info, fault, true);
            && Legal(s, steps)
            && (Exec(s, steps).db == s.db <==>
                s.db.outbox[Created(info)].status.Init? || RefusedForGood(s.db, info, fault))
            && (!RefusedForGood(s.db, info, fault) ==> Exec(s, steps).db == SetStatus(s.db, Created(info), Init).value)
  {
    CreatedRow(s, info);
    NotDeductedAgain(s, info, fault);
    DeductHandlerIsARun(s, info, fault, true);
    var back := SetStatus(s.db, Created(info), Init).value;
    assert back.outbox == s.db.outbox <==> s.db.outbox[Created(info)].status.Init? by {
      if back.outbox == s.db.outbox { assert back.outbox[Created(info)] == s.db.outbox[Created(info)]; }
      if s.db.outbox[Created(info)].status.Init? { assert back.outbox == s.db.outbox; }
    }
  }

  // ---------------------------------------------------------------------- the round it makes

  lemma ReDriven(s: State, info: OrderInfo, fault: bool) returns (steps: seq<Step>)
    requires Inv(s) && Message(OrderCreated, info) in s.topics && HasRow(s.db, info.id, OrderDeductStock)
    requires !RefusedForGood(s.db, info, fault)
    ensures Created(info) in s.db.outbox
    ensures steps == [ConsumeCreated(info, fault), Recover(ReDrive(info), true)]
    ensures Goes(s, steps, s.(db := SetStatus(s.db, Created(info), Init).value))
  {
    CreatedRow(s, info);
    NotDeductedAgain(s, info, fault);
    var owed := Owe(s, ReDrive(info));
    assert Apply(s, ConsumeCreated(info, fault)) == owed;
    assert owed.recoveries - multiset{ReDrive(info)} == s.recoveries;
    GoesTwice(s, ConsumeCreated(info, fault), owed, Recover(ReDrive(info), true));
    steps := [ConsumeCreated(info, fault), Recover(ReDrive(info), true)];
  }

  /** One acknowledged and marked publication. */
  const FINE := Delivery(0, false, true)

  function Quick(): Key -> Delivery {
    k => FINE
  }

  /** The only INIT row is published and marked. */
  lemma PublishOne(s: State, poller: nat, k: Key) returns (steps: seq<Step>, e: State)
    requires Idle(s, poller) && WithStatus(s.db.outbox, Init) == {k} && !k.event.OrderSuccess?
    ensures k in s.db.outbox
    ensures Goes(s, steps, e) && e == s.(db := e.db, topics := e.topics, log := e.log)
    ensures e.db == s.db.(outbox := s.db.outbox[k := s.db.outbox[k].(status := Success)])
    ensures e.topics == s.topics + {Message(k.event, s.db.outbox[k].payload)}
    ensures forall id :: e.log[StockRestored(id)] == s.log[StockRestored(id)]
    ensures e.log[Emitted(TaskId(poller, k))] == s.log[Emitted(TaskId(poller, k))] + 1
  {
    assert k in WithStatus(s.db.outbox, Init);
    assert KeysOf([k]) == {k};
    steps := InitPassIsARun(s, poller, [k], Quick());
    e := Exec(s, steps);
    OneSent(s.db.outbox, k);
    assert Passed(s.db.outbox, {k}, Quick()) == s.db.outbox[k := s.db.outbox[k].(status := Success)];
    OneEmit(poller, k);
    var polled := set j | j in KeysOf([k]) :: Polled(TaskId(poller, j));
    assert e.log == s.log + multiset(polled) + multiset{Emitted(TaskId(poller, k))};
    assert forall id :: StockRestored(id) !in polled;
    assert Emitted(TaskId(poller, k)) !in polled;
  }

  lemma OneSent(outbox: map<Key, Row>, k: Key)
    requires k in outbox && !k.event.OrderSuccess?
    ensures Sent(outbox, [k], Quick()) == {Message(k.event, outbox[k].payload)}
  {
    assert [k][..0] == [];
    assert SentOf(k, outbox[k], FINE) == {Message(k.event, outbox[k].payload)};
  }

  lemma OneEmit(poller: nat, k: Key)
    requires !k.event.OrderSuccess?
    ensures BatchEmits(poller, [k], Quick()) == multiset{Emitted(TaskId(poller, k))}
  {
    assert [k][..0] == [];
    EmitsMore(TaskId(poller, k), 0);
    assert Sends(k, FINE) == 1;
    assert multiset{} + Emits(TaskId(poller, k), 1) == Emits(TaskId(poller, k), 1);
  }

  /** A round: the second delivery and its re-drive first, and at its end every table, topic, task
      and recovery as before, with the message sent once more. */
  ghost predicate Round(s: State, info: OrderInfo, poller: nat, fault: bool, steps: seq<Step>) {
    && |steps| >= 2 && steps[..2] == [ConsumeCreated(info, fault), Recover(ReDrive(info), true)]
    && Legal(s, steps) && Exec(s, steps).(log := s.log) == s
    && var sent := Emitted(TaskId(poller, Created(info)));
       Exec(s, steps).log[sent] == s.log[sent] + 1
  }

  /** In the other case, if no other row waits to be published, the delivery starts a round. */
  lemma DuplicateDeliveryGoesRound(s: State, info: OrderInfo, poller: nat, fault: bool) returns (steps: seq<Step>)
    requires Inv(s) && Message(OrderCreated, info) in s.topics && HasRow(s.db, info.id, OrderDeductStock)
    requires !RefusedForGood(s.db, info, fault)
    requires Idle(s, poller) && WithStatus(s.db.outbox, Init) == {}
    ensures Round(s, info, poller, fault, steps)
  {
    var k := Created(info);
    CreatedRow(s, info);
    assert !s.db.outbox[k].status.Init? by { assert k !in WithStatus(s.db.outbox, Init); }
    var driven := ReDriven(s, info, fault);
    var mid := s.(db := SetStatus(s.db, k, Init).value);
    OnlyWaiting(s.db, k);
    var more, e := PublishOne(mid, poller, k);
    GoesFar(s, driven, mid, more, e);
    steps := driven + more;
    assert steps[..2] == driven;
    assert e.db.outbox == s.db.outbox;
    assert e.topics == s.topics;
  }

  /** Nothing but the log tells one round from the next, so there can be any number of them. */
  lemma {:induction false} RoundsNeverEnd(s: State, info: OrderInfo, poller: nat, fault: bool, n: nat)
    returns (steps: seq<Step>, e: State)
    requires Inv(s) && BookInv(s) && Message(OrderCreated, info) in s.topics && HasRow(s.db, info.id, OrderDeductStock)
    requires !RefusedForGood(s.db, info, fault)
    requires Idle(s, poller) && WithStatus(s.db.outbox, Init) == {}
    ensures Goes(s, steps, e) && e.(log := s.log) == s
    ensures var sent := Emitted(TaskId(poller, Created(info))); e.log[sent] == s.log[sent] + n
  {
    if n == 0 {
      steps, e := [], s;
    } else {
      var mid;
      steps, mid := RoundsNeverEnd(s, info, poller, fault, n - 1);
      RunInv(s, steps);
      var more := DuplicateDeliveryGoesRound(mid, info, poller, fault);
      e := Exec(mid, more);
      GoesFar(s, steps, mid, more, e);
      steps := steps + more;
    }
  }

  lemma OnlyWaiting(db: Db, k: Key)
    requires k in db.outbox && WithStatus(db.outbox, Init) == {}
    ensures WithStatus(SetStatus(db, k, Init).value.outbox, Init) == {k}
  {
    forall j | j in db.outbox ensures !db.outbox[j].status.Init? {
      assert j !in WithStatus(db.outbox, Init);
    }
  }

  lemma SetTwice(db: Db, k: Key, a: EventStatus, b: EventStatus)
    requires k in db.outbox
    ensures SetStatus(SetStatus(db, k, a).value, k, b) == SetStatus(db, k, b)
  {
    var once := SetStatus(db, k, a).value;
    assert once.outbox[k := once.outbox[k].(status := b)] == db.outbox[k := db.outbox[k].(status := b)];
  }

  /** A poller that was slow to mark its publication hides a consumer's failure: the re-drive
      made meanwhile is overwritten and leaves no trace, so the order is not picked up again. */
  lemma LateMarkHidesReDrive(s: State, info: OrderInfo, t: TaskId)
    requires Inv(s) && Message(OrderCreated, info) in s.topics
    requires t.key == Created(info) && InStage(s, t, MarkingPublished)
    ensures var failed := [ConsumeCreated(info, true), Recover(ReDrive(info), true)] + [MarkPublished(t, true)];
            Legal(s, failed) && Exec(s, failed) == Apply(s, MarkPublished(t, true))
  {
    CreatedRow(s, info);
    var owed, mid := Owe(s, ReDrive(info)), s.(db := SetStatus(s.db, t.key, Init).value);
    assert Apply(s, ConsumeCreated(info, true)) == owed;
    assert owed.recoveries - multiset{ReDrive(info)} == s.recoveries;
    GoesTwice(s, ConsumeCreated(info, true), owed, Recover(ReDrive(info), true));
    SetTwice(s.db, t.key, Init, Success);
    GoesOn(s, [ConsumeCreated(info, true), Recover(ReDrive(info), true)], mid, MarkPublished(t, true));
  }
}
