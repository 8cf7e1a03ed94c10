/** The poller's pass over INIT rows: a batch is read, published and marked. */
module Poller {
  import opened Domain
  import opened Saga
  import opened Store

  function KeysOf(batch: seq<Key>): set<Key> {
    set k | k in batch
  }

  predicate Once(batch: seq<Key>) {
    forall i, j | 0 <= i < j < |batch| :: batch[i] != batch[j]
  }

  /** `findEventsByStatus`: rows of one status, at most 500, in any order. */
  method FindEventsByStatus(db: Database, status: EventStatus) returns (batch: seq<Key>)
    ensures Batch(db.outbox, status, KeysOf(batch))
    ensures |batch| == Min(500, |WithStatus(db.outbox, status)|)
    ensures Once(batch)
  {
    batch := [];
    ghost var all := WithStatus(db.outbox, status);
    var todo := WithStatus(db.outbox, status);
    while |batch| < BATCH && todo != {}
      invariant |batch| <= BATCH && |batch| + |todo| == |all|
      invariant todo <= all
      invariant forall i | 0 <= i < |batch| :: batch[i] in all && batch[i] !in todo
      invariant Once(batch)
    {
      var k :| k in todo;
      todo := todo - {k};
      batch := batch + [k];
    }
    KeysOfBatch(batch);
  }

  lemma {:induction false} KeysOfBatch(batch: seq<Key>)
    requires Once(batch)
    ensures |KeysOf(batch)| == |batch|
  {
    if batch == [] {
      assert KeysOf(batch) == {};
    } else {
      var front, last := batch[..|batch| - 1], batch[|batch| - 1];
      KeysOfBatch(front);
      KeysOfMore(front, last);
      assert batch == front + [last];
    }
  }

  lemma KeysOfMore(front: seq<Key>, last: Key)
    ensures KeysOf(front + [last]) == KeysOf(front) + {last}
  {
  }

  // -------------------------------------------------------------------------- publishing

  /** How the world treats one event: the publications that fail before one is acknowledged,
      whether a failed one reaches the topic all the same, and whether the mark is written. */
  datatype Delivery = Delivery(failures: nat, leaked: bool, marked: bool)

  /** The topics, as the producers see them. */
  class Broker {
    var topics: set<Message>

    constructor ()
      ensures topics == {}
    {
      topics := {};
    }
  }

  predicate Acked(key: Key, d: Delivery) {
    key.event.OrderSuccess? || d.failures < ATTEMPTS
  }

  predicate Reaches(key: Key, d: Delivery) {
    !key.event.OrderSuccess? && (d.failures < ATTEMPTS || d.leaked)
  }

  /** The row after a pass. */
  function Marked(key: Key, row: Row, d: Delivery): Row {
    if Acked(key, d) && d.marked then row.(status := Success) else row
  }

  /** What an event puts on its topic. */
  function SentOf(key: Key, row: Row, d: Delivery): set<Message> {
    if Reaches(key, d) then {Message(key.event, row.payload)} else {}
  }

  /** Publications tried for an event. */
  function Sends(key: Key, d: Delivery): nat {
    if key.event.OrderSuccess? then 0 else Min(d.failures + 1, ATTEMPTS)
  }

  function AllSends(batch: seq<Key>, world: Key -> Delivery): nat {
    if batch == [] then 0
    else AllSends(batch[..|batch| - 1], world) + Sends(batch[|batch| - 1], world(batch[|batch| - 1]))
  }

  /** A producer: one try and three retries. */
  method Produce(broker: Broker, message: Message, failures: nat, leaked: bool) returns (acked: bool, sends: nat)
    modifies broker
    ensures acked <==> failures < 4
    ensures sends == Min(failures + 1, 4)
    ensures broker.topics == old(broker.topics) + if acked || leaked then {message} else {}
  {
    acked, sends := false, 0;
    while !acked && sends < ATTEMPTS
      invariant sends <= ATTEMPTS
      invariant acked ==> sends == failures + 1
      invariant !acked ==> sends <= failures
      invariant broker.topics == old(broker.topics) + if acked || (leaked && sends > 0) then {message} else {}
    {
      acked := sends == failures;
      if acked || leaked { broker.topics := broker.topics + {message}; }
      sends := sends + 1;
    }
  }

  /** `processOutboxEvent`. A publication or a mark that fails is caught, so that nothing is thrown
      and the row is left as it is. */
  method ProcessOutboxEvent(db: Database, broker: Broker, key: Key, d: Delivery) returns (thrown: Thrown, sends: nat)
    requires key in db.outbox
    modifies db`outbox, broker
    ensures thrown.Nothing?
    ensures db.outbox == old(db.outbox)[key := Marked(key, old(db.outbox)[key], d)]
    ensures broker.topics == old(broker.topics) + SentOf(key, old(db.outbox)[key], d)
    ensures sends == Sends(key, d)
  {
    var acked := true;
    thrown, sends := Nothing, 0;
    if !key.event.OrderSuccess? {
      acked, sends := Produce(broker, Message(key.event, db.outbox[key].payload), d.failures, d.leaked);
    }
    if acked {
      thrown := db.UpdateByAggregateIdAndEventType(key, Success, d.marked);
    } else {
      thrown := Threw(Other);
    }
    if thrown.Threw? { thrown := Nothing; }
  }

  /** The handler of one INIT row, with the retries and the FAIL mark that `createEventHandler` puts
      around it. Neither is ever reached. */
  method HandleInitEvent(db: Database, broker: Broker, key: Key, d: Delivery) returns (sends: nat)
    requires key in db.outbox
    modifies db`outbox, broker
    ensures db.outbox == old(db.outbox)[key := Marked(key, old(db.outbox)[key], d)]
    ensures broker.topics == old(broker.topics) + SentOf(key, old(db.outbox)[key], d)
    ensures sends == Sends(key, d)
  {
    var thrown;
    thrown, sends := ProcessOutboxEvent(db, broker, key, d);
    if thrown.Threw? {
      // here three more attempts would be made and then the row set FAIL; nothing is thrown
      assert false;
    }
  }

  /** The outbox with some of its rows handled. */
  function Passed(outbox: map<Key, Row>, keys: set<Key>, world: Key -> Delivery): map<Key, Row> {
    map k | k in outbox :: if k in keys then Marked(k, outbox[k], world(k)) else outbox[k]
  }

  predicate AllIn(outbox: map<Key, Row>, batch: seq<Key>) {
    forall i | 0 <= i < |batch| :: batch[i] in outbox
  }

  /** What a batch puts on the topics. */
  function Sent(outbox: map<Key, Row>, batch: seq<Key>, world: Key -> Delivery): set<Message>
    requires AllIn(outbox, batch)
  {
    if batch == [] then {}
    else
      var last := batch[|batch| - 1];
      Sent(outbox, batch[..|batch| - 1], world) + SentOf(last, outbox[last], world(last))
  }

  /** Handling one more row of a batch. */
  lemma OneMorePassed(outbox: map<Key, Row>, done: seq<Key>, key: Key, world: Key -> Delivery)
    requires key in outbox && key !in done
    ensures Passed(outbox, KeysOf(done), world)[key := Marked(key, outbox[key], world(key))]
            == Passed(outbox, KeysOf(done + [key]), world)
    ensures Passed(outbox, KeysOf(done), world)[key] == outbox[key]
  {
    KeysOfMore(done, key);
  }

  lemma OneMoreSent(outbox: map<Key, Row>, done: seq<Key>, key: Key, world: Key -> Delivery)
    requires key in outbox && AllIn(outbox, done) && AllIn(outbox, done + [key])
    ensures Sent(outbox, done + [key], world) == Sent(outbox, done, world) + SentOf(key, outbox[key], world(key))
    ensures AllSends(done + [key], world) == AllSends(done, world) + Sends(key, world(key))
  {
    assert (done + [key])[..|done|] == done;
  }

  /** `handleInitEvents`: every event of the batch is handled once, whatever the others did, and
      no other row is touched. No row becomes FAIL. */
  method HandleInitEvents(db: Database, broker: Broker, world: Key -> Delivery) returns (batch: seq<Key>, sends: nat)
    modifies db`outbox, broker
    ensures Batch(old(db.outbox), Init, KeysOf(batch))
    ensures Once(batch)
    ensures db.outbox == Passed(old(db.outbox), KeysOf(batch), world)
    ensures AllIn(old(db.outbox), batch)
    ensures broker.topics == old(broker.topics) + Sent(old(db.outbox), batch, world)
    ensures sends == AllSends(batch, world)
  {
    batch := FindEventsByStatus(db, Init);
    sends := 0;
    ghost var start := PassState(db.outbox, broker.topics, 0);
    BatchIsThere(db.outbox, Init, batch);
    NothingHandled(start, batch, world);
    var i := 0;
    while i < |batch|
      invariant 0 <= i <= |batch|
      invariant PassState(db.outbox, broker.topics, sends) == HandledTo(start, batch, i, world)
    {
      OneMoreHandled(start, batch, i, world);
      var n := HandleInitEvent(db, broker, batch[i], world(batch[i]));
      sends := sends + n;
      i := i + 1;
    }
    assert batch[..i] == batch;
  }

  /** What a pass changes. */
  datatype PassState = PassState(outbox: map<Key, Row>, topics: set<Message>, sends: nat)

  /** The first `n` rows of a batch handled. */
  function HandledTo(p: PassState, batch: seq<Key>, n: nat, world: Key -> Delivery): PassState
    requires n <= |batch| && AllIn(p.outbox, batch)
  {
    PassState(Passed(p.outbox, KeysOf(batch[..n]), world), p.topics + Sent(p.outbox, batch[..n], world),
              p.sends + AllSends(batch[..n], world))
  }

  lemma NothingHandled(p: PassState, batch: seq<Key>, world: Key -> Delivery)
    requires AllIn(p.outbox, batch)
    ensures HandledTo(p, batch, 0, world) == p
  {
    assert batch[..0] == [];
    assert Passed(p.outbox, KeysOf([]), world) == p.outbox;
  }

  lemma OneMoreHandled(p: PassState, batch: seq<Key>, n: nat, world: Key -> Delivery)
    requires n < |batch| && Once(batch) && AllIn(p.outbox, batch)
    ensures var (now, next, k) := (HandledTo(p, batch, n, world), HandledTo(p, batch, n + 1, world), batch[n]);
            && k in now.outbox
            && next.outbox == now.outbox[k := Marked(k, now.outbox[k], world(k))]
            && next.topics == now.topics + SentOf(k, now.outbox[k], world(k))
            && next.sends == now.sends + Sends(k, world(k))
  {
    assert batch[..n] + [batch[n]] == batch[..n + 1] && batch[n] !in batch[..n];
    OneMorePassed(p.outbox, batch[..n], batch[n], world);
    OneMoreSent(p.outbox, batch[..n], batch[n], world);
  }

  lemma BatchIsThere(outbox: map<Key, Row>, status: EventStatus, batch: seq<Key>)
    requires Batch(outbox, status, KeysOf(batch))
    ensures AllIn(outbox, batch) && forall i | 0 <= i < |batch| :: outbox[batch[i]].status == status
  {
    forall i | 0 <= i < |batch| ensures batch[i] in WithStatus(outbox, status) {
      assert batch[i] in KeysOf(batch);
    }
  }

  /** If every publication is acknowledged and every mark written, a pass publishes and marks
      exactly min(500, the INIT rows), and a row of another status stays as it is. */
  lemma PassClears(before: map<Key, Row>, keys: set<Key>, world: Key -> Delivery)
    requires Batch(before, Init, keys)
    requires forall k | k in keys :: Acked(k, world(k)) && world(k).marked
    ensures var after := Passed(before, keys, world);
            && |WithStatus(after, Init)| == |WithStatus(before, Init)| - Min(500, |WithStatus(before, Init)|)
            && WithStatus(after, Success) == WithStatus(before, Success) + keys
            && WithStatus(after, Fail) == WithStatus(before, Fail)
  {
    var after := Passed(before, keys, world);
    forall k | k in keys ensures k in before && before[k].status == Init {
      assert k in WithStatus(before, Init);
    }
    Cleared(before, after, keys, Init);
  }

  /** Rows of one status set to SUCCESS. */
  lemma Cleared(before: map<Key, Row>, after: map<Key, Row>, keys: set<Key>, status: EventStatus)
    requires after.Keys == before.Keys && !status.Success?
    requires forall k | k in keys :: k in before && before[k].status == status && after[k].status == Success
    requires forall k | k in before && k !in keys :: after[k] == before[k]
    ensures |WithStatus(after, status)| == |WithStatus(before, status)| - |keys|
    ensures WithStatus(after, Success) == WithStatus(before, Success) + keys
    ensures forall other | other != status && !other.Success? :: WithStatus(after, other) == WithStatus(before, other)
  {
    assert WithStatus(after, status) == WithStatus(before, status) - keys;
    assert keys <= WithStatus(before, status);
    SuccessGrows(before, after, keys, status);
    forall other: EventStatus | other != status && !other.Success?
      ensures WithStatus(after, other) == WithStatus(before, other)
    {
      OthersStay(before, after, keys, status, other);
    }
  }

  lemma SuccessGrows(before: map<Key, Row>, after: map<Key, Row>, keys: set<Key>, status: EventStatus)
    requires after.Keys == before.Keys && !status.Success?
    requires forall k | k in keys :: k in before && before[k].status == status && after[k].status == Success
    requires forall k | k in before && k !in keys :: after[k] == before[k]
    ensures WithStatus(after, Success) == WithStatus(before, Success) + keys
  {
  }

  lemma OthersStay(before: map<Key, Row>, after: map<Key, Row>, keys: set<Key>, status: EventStatus, other: EventStatus)
    requires after.Keys == before.Keys && other != status && !other.Success?
    requires forall k | k in keys :: k in before && before[k].status == status && after[k].status == Success
    requires forall k | k in before && k !in keys :: after[k] == before[k]
    ensures WithStatus(after, other) == WithStatus(before, other)
  {
  }

  /** No event of a pass is published more than four times. */
  lemma {:induction false} FourSendsAtMost(batch: seq<Key>, world: Key -> Delivery)
    ensures AllSends(batch, world) <= 4 * |batch|
  {
    if batch != [] { FourSendsAtMost(batch[..|batch| - 1], world); }
  }

  // ------------------------------------------------------------- what the saga says of it

  /** `n` publications of one row. */
  function Emits(t: TaskId, n: nat): multiset<Entry> {
    multiset{}[Emitted(t) := n]
  }

  function BatchEmits(poller: nat, batch: seq<Key>, world: Key -> Delivery): multiset<Entry> {
    if batch == [] then multiset{}
    else
      var last := batch[|batch| - 1];
      BatchEmits(poller, batch[..|batch| - 1], world) + Emits(TaskId(poller, last), Sends(last, world(last)))
  }

  lemma EmitsMore(t: TaskId, n: nat)
    ensures Emits(t, n) + multiset{Emitted(t)} == Emits(t, n + 1)
    ensures |Emits(t, n)| == n && Emits(t, 0) == multiset{}
  {
  }

  /** The saga with one row published so far as `n` failures go. */
  function Failing(s: State, t: TaskId, n: nat, leaked: bool): State
    requires t.key in s.db.outbox
  {
    s.(topics := s.topics + (if leaked && n > 0 then {Message(t.key.event, s.db.outbox[t.key].payload)} else {}),
       tasks := s.tasks[t := Task(Publishing, n)],
       log := s.log + Emits(t, n))
  }

  lemma FailOnce(s: State, t: TaskId, n: nat, leaked: bool)
    requires t.key in s.db.outbox && !t.key.event.OrderSuccess? && n + 1 < ATTEMPTS
    ensures Enabled(Failing(s, t, n, leaked), Publish(t, leaked, false))
    ensures Apply(Failing(s, t, n, leaked), Publish(t, leaked, false)) == Failing(s, t, n + 1, leaked)
  {
    var next := Failing(s, t, n + 1, leaked);
    var sent := PublishOnce(Failing(s, t, n, leaked), t, leaked, false);
    OneFailureMore(s, t, n, leaked);
    assert sent.topics == next.topics;
    assert sent.tasks == next.tasks;
    assert sent.log == next.log;
  }

  lemma OneFailureMore(s: State, t: TaskId, n: nat, leaked: bool)
    requires t.key in s.db.outbox
    ensures var (now, next) := (Failing(s, t, n, leaked), Failing(s, t, n + 1, leaked));
            && next.topics == now.topics + (if leaked then {Message(t.key.event, s.db.outbox[t.key].payload)} else {})
            && next.tasks == now.tasks[t := Task(Publishing, n + 1)]
            && next.log == now.log + multiset{Emitted(t)}
  {
    EmitsMore(t, n);
    assert s.log + Emits(t, n) + multiset{Emitted(t)} == s.log + Emits(t, n + 1);
  }

  /** The failed publications of a row are a run. */
  lemma {:induction false} FailuresAreARun(s: State, t: TaskId, n: nat, leaked: bool) returns (steps: seq<Step>)
    requires t.key in s.db.outbox && !t.key.event.OrderSuccess? && n < ATTEMPTS
    requires t in s.tasks && s.tasks[t] == Task(Publishing, 0)
    ensures Goes(s, steps, Failing(s, t, n, leaked))
  {
    if n == 0 {
      EmitsMore(t, 0);
      assert s.tasks[t := Task(Publishing, 0)] == s.tasks;
      assert Failing(s, t, 0, leaked) == s;
      steps := [];
    } else {
      var front := FailuresAreARun(s, t, n - 1, leaked);
      FailOnce(s, t, n - 1, leaked);
      GoesOn(s, front, Failing(s, t, n - 1, leaked), Publish(t, leaked, false));
      steps := front + [Publish(t, leaked, false)];
    }
  }

  /** The saga with one row of a pass handled. */
  function EventDone(s: State, t: TaskId, d: Delivery): State
    requires t.key in s.db.outbox
  {
    var row := s.db.outbox[t.key];
    s.(db := s.db.(outbox := s.db.outbox[t.key := Marked(t.key, row, d)]),
       topics := s.topics + SentOf(t.key, row, d),
       tasks := s.tasks - {t},
       log := s.log + Emits(t, Sends(t.key, d)))
  }

  /** The last publication of a row that is given up. */
  lemma UnackedEnd(s: State, t: TaskId, d: Delivery)
    requires t.key in s.db.outbox && !t.key.event.OrderSuccess? && t in s.tasks && d.failures >= ATTEMPTS
    ensures Enabled(Failing(s, t, ATTEMPTS - 1, d.leaked), Publish(t, d.leaked, false))
    ensures Apply(Failing(s, t, ATTEMPTS - 1, d.leaked), Publish(t, d.leaked, false)) == EventDone(s, t, d)
  {
    EmitsMore(t, ATTEMPTS - 1);
    assert s.log + Emits(t, ATTEMPTS - 1) + multiset{Emitted(t)} == s.log + Emits(t, ATTEMPTS);
    assert s.tasks[t := Task(Publishing, ATTEMPTS - 1)] - {t} == s.tasks - {t};
    assert s.db.outbox[t.key := s.db.outbox[t.key]] == s.db.outbox;
  }

  /** The saga with one row acknowledged and not marked yet. */
  function Acknowledged(s: State, t: TaskId, d: Delivery): State
    requires t.key in s.db.outbox
  {
    s.(topics := s.topics + SentOf(t.key, s.db.outbox[t.key], d),
       tasks := s.tasks[t := Task(MarkingPublished, 0)],
       log := s.log + Emits(t, Sends(t.key, d)))
  }

  lemma AckedSend(s: State, t: TaskId, d: Delivery)
    requires t.key in s.db.outbox && !t.key.event.OrderSuccess? && d.failures < ATTEMPTS
    ensures Enabled(Failing(s, t, d.failures, d.leaked), Publish(t, true, true))
    ensures Apply(Failing(s, t, d.failures, d.leaked), Publish(t, true, true)) == Acknowledged(s, t, d)
  {
    EmitsMore(t, d.failures);
    assert s.log + Emits(t, d.failures) + multiset{Emitted(t)} == s.log + Emits(t, d.failures + 1);
    var sent := PublishOnce(Failing(s, t, d.failures, d.leaked), t, true, true);
    assert sent.topics == Acknowledged(s, t, d).topics;
    assert sent.tasks == Acknowledged(s, t, d).tasks;
  }

  lemma SilentSend(s: State, t: TaskId, d: Delivery)
    requires t.key in s.db.outbox && t.key.event.OrderSuccess? && t in s.tasks && s.tasks[t] == Task(Publishing, 0)
    ensures Enabled(s, Publish(t, false, true))
    ensures Apply(s, Publish(t, false, true)) == Acknowledged(s, t, d)
  {
    EmitsMore(t, 0);
  }

  lemma MarkEnd(s: State, t: TaskId, d: Delivery)
    requires t.key in s.db.outbox && t in s.tasks && Acked(t.key, d)
    ensures Enabled(Acknowledged(s, t, d), MarkPublished(t, d.marked))
    ensures Apply(Acknowledged(s, t, d), MarkPublished(t, d.marked)) == EventDone(s, t, d)
  {
    assert s.tasks[t := Task(MarkingPublished, 0)] - {t} == s.tasks - {t};
    assert s.db.outbox[t.key := s.db.outbox[t.key]] == s.db.outbox;
  }

  /** Handling one row of the batch is a run. */
  lemma EventIsARun(s: State, t: TaskId, d: Delivery) returns (steps: seq<Step>)
    requires t.key in s.db.outbox && t in s.tasks && s.tasks[t] == Task(Publishing, 0)
    ensures Goes(s, steps, EventDone(s, t, d))
  {
    if t.key.event.OrderSuccess? {
      SilentSend(s, t, d);
      MarkEnd(s, t, d);
      GoesTwice(s, Publish(t, false, true), Acknowledged(s, t, d), MarkPublished(t, d.marked));
      steps := [Publish(t, false, true), MarkPublished(t, d.marked)];
    } else if d.failures < ATTEMPTS {
      steps := FailuresAreARun(s, t, d.failures, d.leaked);
      AckedSend(s, t, d);
      GoesOn(s, steps, Failing(s, t, d.failures, d.leaked), Publish(t, true, true));
      steps := steps + [Publish(t, true, true)];
      MarkEnd(s, t, d);
      GoesOn(s, steps, Acknowledged(s, t, d), MarkPublished(t, d.marked));
      steps := steps + [MarkPublished(t, d.marked)];
    } else {
      steps := FailuresAreARun(s, t, ATTEMPTS - 1, d.leaked);
      UnackedEnd(s, t, d);
      GoesOn(s, steps, Failing(s, t, ATTEMPTS - 1, d.leaked), Publish(t, d.leaked, false));
      steps := steps + [Publish(t, d.leaked, false)];
    }
  }

  function Waiting(tasks: map<TaskId, Task>, poller: nat, rest: seq<Key>, stage: Stage): map<TaskId, Task> {
    tasks + map k | k in KeysOf(rest) :: TaskId(poller, k) := Task(stage, 0)
  }

  /** The saga with some rows of a batch handled and the others read. `log` is the one after the
      reading. */
  function PartPassed(s: State, poller: nat, log: multiset<Entry>, done: seq<Key>, rest: seq<Key>,
                      world: Key -> Delivery): State
    requires AllIn(s.db.outbox, done)
  {
    s.(db := s.db.(outbox := Passed(s.db.outbox, KeysOf(done), world)),
       topics := s.topics + Sent(s.db.outbox, done, world),
       tasks := Waiting(s.tasks, poller, rest, Publishing),
       log := log + BatchEmits(poller, done, world))
  }

  function Reading(s: State, poller: nat, batch: seq<Key>): multiset<Entry> {
    s.log + multiset(set k | k in KeysOf(batch) :: Polled(TaskId(poller, k)))
  }

  lemma PassBegins(s: State, poller: nat, batch: seq<Key>, world: Key -> Delivery)
    ensures PartPassed(s, poller, Reading(s, poller, batch), [], batch, world)
            == WithTasks(s, poller, KeysOf(batch), Publishing)
  {
    assert Passed(s.db.outbox, KeysOf([]), world) == s.db.outbox;
  }

  lemma TasksLeft(tasks: map<TaskId, Task>, poller: nat, key: Key, rest: set<Key>, stage: Stage)
    requires (forall t | t in tasks :: t.poller != poller) && key !in rest
    ensures (tasks + map k | k in {key} + rest :: TaskId(poller, k) := Task(stage, 0)) - {TaskId(poller, key)}
            == tasks + map k | k in rest :: TaskId(poller, k) := Task(stage, 0)
  {
  }

  lemma TasksGoOn(s: State, poller: nat, key: Key, rest: seq<Key>, stage: Stage)
    requires Idle(s, poller) && key !in rest
    ensures var (left, t) := (Waiting(s.tasks, poller, [key] + rest, stage), TaskId(poller, key));
            t in left && left[t] == Task(stage, 0) && left - {t} == Waiting(s.tasks, poller, rest, stage)
  {
    assert KeysOf([key] + rest) == {key} + KeysOf(rest);
    TasksLeft(s.tasks, poller, key, KeysOf(rest), stage);
  }

  lemma LogGoesOn(log: multiset<Entry>, poller: nat, done: seq<Key>, key: Key, world: Key -> Delivery)
    ensures log + BatchEmits(poller, done, world) + Emits(TaskId(poller, key), Sends(key, world(key)))
            == log + BatchEmits(poller, done + [key], world)
  {
    assert (done + [key])[..|done|] == done;
  }

  lemma PassGoesOn(s: State, poller: nat, log: multiset<Entry>, done: seq<Key>, key: Key, rest: seq<Key>,
                   world: Key -> Delivery)
    requires Idle(s, poller) && AllIn(s.db.outbox, done + [key]) && key !in done && key !in rest
    ensures AllIn(s.db.outbox, done)
    ensures var (part, t) := (PartPassed(s, poller, log, done, [key] + rest, world), TaskId(poller, key));
            && t.key in part.db.outbox && t in part.tasks && part.tasks[t] == Task(Publishing, 0)
            && EventDone(part, t, world(key)) == PartPassed(s, poller, log, done + [key], rest, world)
  {
    assert forall i | 0 <= i < |done| :: (done + [key])[i] == done[i];
    assert (done + [key])[|done|] == key;
    OneMorePassed(s.db.outbox, done, key, world);
    OneMoreSent(s.db.outbox, done, key, world);
    TasksGoOn(s, poller, key, rest, Publishing);
    LogGoesOn(log, poller, done, key, world);
    ghost var part := PartPassed(s, poller, log, done, [key] + rest, world);
    ghost var next := PartPassed(s, poller, log, done + [key], rest, world);
    assert part.db.outbox[key] == s.db.outbox[key];
    ghost var e := EventDone(part, TaskId(poller, key), world(key));
    assert e.db == next.db;
    assert e.topics == next.topics;
    assert e.tasks == next.tasks && e.log == next.log;
  }

  lemma {:induction false} PartIsARun(s: State, poller: nat, done: seq<Key>, rest: seq<Key>, world: Key -> Delivery)
    returns (steps: seq<Step>)
    requires Idle(s, poller) && Batch(s.db.outbox, Init, KeysOf(done + rest)) && AllIn(s.db.outbox, done)
    requires Once(done + rest)
    ensures Goes(s, steps, PartPassed(s, poller, Reading(s, poller, done + rest), done, rest, world))
  {
    var log := Reading(s, poller, done + rest);
    if done == [] {
      assert done + rest == rest;
      PassBegins(s, poller, rest, world);
      steps := [PollInit(poller, KeysOf(rest))];
      GoesOnce(s, steps[0]);
    } else {
      var front, key := done[..|done| - 1], done[|done| - 1];
      assert done == front + [key] && front + ([key] + rest) == done + rest;
      KeyOnce(front, key, rest);
      steps := PartIsARun(s, poller, front, [key] + rest, world);
      PassGoesOn(s, poller, log, front, key, rest, world);
      var part := PartPassed(s, poller, log, front, [key] + rest, world);
      var more := EventIsARun(part, TaskId(poller, key), world(key));
      GoesFar(s, steps, part, more, PartPassed(s, poller, log, done, rest, world));
      steps := steps + more;
    }
  }

  lemma KeyOnce(front: seq<Key>, key: Key, rest: seq<Key>)
    requires Once(front + [key] + rest)
    ensures key !in front && key !in rest
  {
    var all := front + [key] + rest;
    assert all[|front|] == key;
    forall i | 0 <= i < |front| ensures front[i] != key { assert all[i] == front[i]; }
    forall i | 0 <= i < |rest| ensures rest[i] != key { assert all[|front| + 1 + i] == rest[i]; }
  }

  /** The whole INIT pass is a run of the saga: the outbox is what `HandleInitEvents` makes of it,
      the topics gain what it sends, each row has been read once and sent as often as it says. */
  lemma InitPassIsARun(s: State, poller: nat, batch: seq<Key>, world: Key -> Delivery) returns (steps: seq<Step>)
    requires Idle(s, poller) && Batch(s.db.outbox, Init, KeysOf(batch))
    requires Once(batch)
    ensures AllIn(s.db.outbox, batch)
    ensures Goes(s, steps,
                 s.(db := s.db.(outbox := Passed(s.db.outbox, KeysOf(batch), world)),
                    topics := s.topics + Sent(s.db.outbox, batch, world),
                    log := s.log + multiset(set k | k in KeysOf(batch) :: Polled(TaskId(poller, k)))
                           + BatchEmits(poller, batch, world)))
    ensures |BatchEmits(poller, batch, world)| == AllSends(batch, world)
  {
    BatchIsThere(s.db.outbox, Init, batch);
    assert batch + [] == batch;
    steps := PartIsARun(s, poller, batch, [], world);
    assert Waiting(s.tasks, poller, [], Publishing) == s.tasks;
    EmitsCount(poller, batch, world);
  }

  lemma {:induction false} EmitsCount(poller: nat, batch: seq<Key>, world: Key -> Delivery)
    ensures |BatchEmits(poller, batch, world)| == AllSends(batch, world)
  {
    if batch != [] {
      var last := batch[|batch| - 1];
      EmitsCount(poller, batch[..|batch| - 1], world);
      EmitsMore(TaskId(poller, last), Sends(last, world(last)));
    }
  }
}
