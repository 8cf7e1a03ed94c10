/** The poller's pass over FAIL rows: each row's stage is undone and the row marked, with up to
    four attempts. How the world treats an attempt decides what it comes to. */
module Compensation {
  import opened Domain
  import opened Saga
  import opened Store
  import opened Poller

  /** The world of one attempt: the statement of the restore transaction that fails, if any;
      whether the order's status is written; whether the mark is. */
  datatype World = World(fault: Fault, up: bool, markUp: bool)

  /** Whether a restore transaction commits. Statement 0 locks the rows, 1 commits, 2 and on
      write them. */
  predicate RestoreCommits(stocked: set<nat>, items: seq<Item>, fault: Fault) {
    && items != []
    && match fault
       case NoFault => true
       case At(statement) => statement >= 2 + |Locked(stocked, items)|
  }

  /** Whether the write of an attempt goes through. */
  predicate Commits(db: Db, key: Key, w: World)
    requires key in db.outbox
  {
    if key.event.OrderPayment? then RestoreCommits(db.stock.Keys, db.outbox[key].payload.items, w.fault) else w.up
  }

  /** The tables before the mark, or that the attempt failed. A failed restore is passed over. */
  function Compensated(db: Db, key: Key, committed: bool): Result<Db>
    requires key in db.outbox
  {
    var info := db.outbox[key].payload;
    if key.event.OrderPayment? then
      Ok(if committed && RestoreTx(db, info).Ok? then RestoreTx(db, info).value else db)
    else if committed then SetOrderStatus(db, info.id, Failed)
    else Err(Conflict)
  }

  // ---------------------------------------------------------------------------- one attempt

  /** The restore transaction. Every error it lets out is a conflict. */
  method RestoreStock(db: Database, info: OrderInfo, fault: Fault) returns (thrown: Thrown)
    modifies db
    ensures thrown.Nothing? <==> RestoreCommits(old(db.stock).Keys, info.items, fault)
    ensures thrown.Threw? ==> thrown.e.AppConflict? && db.Tables() == old(db.Tables())
    ensures thrown.Nothing? ==> RestoreTx(old(db.Tables()), info) == Ok(db.Tables())
  {
    var saved := db.Tables();
    var rows;
    thrown, rows := db.FindByIdsWithXLock(ProductIds(info.items), fault != At(0));
    assert info.items != [] ==> info.items[0].productId in ProductIds(info.items);
    if thrown.Nothing? {
      RowCount(rows, saved.stock, info.items);
      var i := 0;
      while i < |rows|
        invariant 0 <= i <= |rows| && fresh(rows)
        invariant db.Tables() == saved && Loaded(rows, saved.stock, ProductIds(info.items))
        invariant forall j | 0 <= j < |rows| ::
                    rows[j].stock == saved.stock[rows[j].productId]
                                     + if j < i then FirstQty(info.items, rows[j].productId) else 0
      {
        rows[i].Add(FirstQty(info.items, rows[i].productId));
        i := i + 1;
      }
      thrown := db.UpdateBulk(rows, fault, 2);
      if thrown.Nothing? { AllRestored(saved.stock, info.items, rows, db.stock); }
    }
    if thrown.Nothing? && fault == At(1) { thrown := Threw(Other); }
    if thrown.Threw? {
      db.Rollback(saved);
      thrown := Threw(Classified(thrown.e));
    }
  }

  lemma AllRestored(before: map<nat, int>, items: seq<Item>, rows: seq<ProductStockModel>, after: map<nat, int>)
    requires Loaded(rows, before, ProductIds(items)) && items != []
    requires forall j | 0 <= j < |rows| ::
               rows[j].stock == before[rows[j].productId] + FirstQty(items, rows[j].productId)
    requires after.Keys == before.Keys
    requires forall j | 0 <= j < |rows| :: after[rows[j].productId] == rows[j].stock
    requires forall p | p in after && !HasModel(rows, p) :: after[p] == before[p]
    ensures Restored(before, items) == Ok(after)
  {
    forall p | p in before ensures after[p] == before[p] + FirstQty(items, p) {
      if !HasModel(rows, p) { NotOrdered(items, p); }
    }
    assert after == map p | p in before :: before[p] + FirstQty(items, p);
  }

  /** `executeCompensation`: undo, then mark. */
  method ExecuteCompensation(db: Database, key: Key, w: World) returns (thrown: Thrown)
    requires key in db.outbox
    modifies db
    ensures key in db.outbox
    ensures match Compensated(old(db.Tables()), key, Commits(old(db.Tables()), key, w))
            case Err(_) => thrown.Threw? && db.Tables() == old(db.Tables())
            case Ok(d) =>
              && thrown.Nothing? == w.markUp
              && db.Tables() == if w.markUp then SetStatus(d, key, Success).value else d
  {
    var info := db.outbox[key].payload;
    if key.event.OrderPayment? {
      thrown := RestoreStock(db, info, w.fault);
      if thrown.Threw? && !thrown.e.AppConflict? {
        // here the order would be set FAILED; the transaction lets out nothing but conflicts
        assert false;
      }
    } else {
      thrown := db.UpdateOrder(info.id, Failed, w.up);
      if thrown.Threw? { return; }
    }
    thrown := db.UpdateByAggregateIdAndEventType(key, Success, w.markUp);
  }

  // -------------------------------------------------------------------------------- one row

  /** Whether one of the attempts goes through and is marked. */
  predicate Finishes(db: Db, key: Key, worlds: seq<World>)
    requires key in db.outbox
    decreases |worlds|
  {
    worlds != [] &&
    match Compensated(db, key, Commits(db, key, worlds[0]))
    case Err(_) => Finishes(db, key, worlds[1..])
    case Ok(d) => worlds[0].markUp || Finishes(d, key, worlds[1..])
  }

  /** The tables after the attempts, and after the FAIL mark if none was marked. */
  function AfterHandling(db: Db, key: Key, worlds: seq<World>, failUp: bool): (after: Db)
    requires key in db.outbox
    ensures after.outbox.Keys == db.outbox.Keys && after.stock.Keys == db.stock.Keys
    ensures forall k | k in db.outbox && k != key :: after.outbox[k] == db.outbox[k]
    decreases |worlds|
  {
    if worlds == [] then if failUp then SetStatus(db, key, Fail).value else db
    else
      match Compensated(db, key, Commits(db, key, worlds[0]))
      case Err(_) => AfterHandling(db, key, worlds[1..], failUp)
      case Ok(d) =>
        if worlds[0].markUp then SetStatus(d, key, Success).value else AfterHandling(d, key, worlds[1..], failUp)
  }

  /** The handler of one FAIL row: attempts until one is marked, four at most, then the FAIL mark.
      It fails only if that mark does. */
  method HandleFailedEvent(db: Database, key: Key, worlds: seq<World>, failUp: bool) returns (thrown: Thrown)
    requires key in db.outbox && |worlds| == 4
    modifies db
    ensures db.Tables() == AfterHandling(old(db.Tables()), key, worlds, failUp)
    ensures thrown.Threw? <==> !Finishes(old(db.Tables()), key, worlds) && !failUp
  {
    var n := 0;
    ghost var start := db.Tables();
    while n < ATTEMPTS
      invariant n <= ATTEMPTS && key in db.outbox
      invariant AfterHandling(start, key, worlds, failUp) == AfterHandling(db.Tables(), key, worlds[n..], failUp)
      invariant Finishes(start, key, worlds) <==> Finishes(db.Tables(), key, worlds[n..])
    {
      assert worlds[n..][0] == worlds[n] && worlds[n..][1..] == worlds[n + 1..];
      thrown := ExecuteCompensation(db, key, worlds[n]);
      if thrown.Nothing? { return; }
      n := n + 1;
    }
    thrown := db.UpdateByAggregateIdAndEventType(key, Fail, failUp);
  }

  // --------------------------------------------------------------- how often stock comes back

  /** The restores that commit among the attempts made: those up to the first that is marked. */
  function Restores(stocked: set<nat>, items: seq<Item>, worlds: seq<World>): nat {
    if worlds == [] then 0
    else
      (if RestoreCommits(stocked, items, worlds[0].fault) then 1 else 0)
      + if worlds[0].markUp then 0 else Restores(stocked, items, worlds[1..])
  }

  lemma OneAttempt(db: Db, key: Key, w: World, p: nat)
    requires key in db.outbox && key.event.OrderPayment? && p in db.stock
    ensures var items := db.outbox[key].payload.items;
            var r := Compensated(db, key, Commits(db, key, w));
            && r.Ok? && r.value.outbox == db.outbox && r.value.stock.Keys == db.stock.Keys
            && r.value.stock[p] == db.stock[p]
                                   + if RestoreCommits(db.stock.Keys, items, w.fault) then FirstQty(items, p) else 0
  {
  }

  lemma OneTimeMore(n: nat, q: nat)
    ensures (n + 1) * q == n * q + q
  {
  }

  /** A restore is not undone when its mark fails: the stock comes back once for every attempt up
      to the first marked one whose faults let it commit. */
  lemma {:induction false} StockComesBackEveryTime(db: Db, key: Key, worlds: seq<World>, failUp: bool, p: nat)
    requires key in db.outbox && key.event.OrderPayment? && p in db.stock
    ensures var items := db.outbox[key].payload.items;
            AfterHandling(db, key, worlds, failUp).stock[p]
            == db.stock[p] + Restores(db.stock.Keys, items, worlds) * FirstQty(items, p)
    decreases |worlds|
  {
    if worlds != [] {
      var items := db.outbox[key].payload.items;
      OneAttempt(db, key, worlds[0], p);
      if !worlds[0].markUp {
        var d := Compensated(db, key, Commits(db, key, worlds[0])).value;
        StockComesBackEveryTime(d, key, worlds[1..], failUp, p);
        OneTimeMore(Restores(db.stock.Keys, items, worlds[1..]), FirstQty(items, p));
      }
    }
  }

  /** The `i`th attempt is made, and its restore commits. */
  predicate Restoring(stocked: set<nat>, items: seq<Item>, worlds: seq<World>, i: nat) {
    && i < |worlds| && RestoreCommits(stocked, items, worlds[i].fault)
    && forall k | 0 <= k < i :: !worlds[k].markUp
  }

  /** The `i`th attempt restores, and no other does. */
  predicate OnlyAt(stocked: set<nat>, items: seq<Item>, worlds: seq<World>, i: nat) {
    && Restoring(stocked, items, worlds, i)
    && forall j | 0 <= j < |worlds| && j != i :: !Restoring(stocked, items, worlds, j)
  }

  predicate RestoringOnce(stocked: set<nat>, items: seq<Item>, worlds: seq<World>) {
    exists i | 0 <= i < |worlds| :: OnlyAt(stocked, items, worlds, i)
  }

  lemma LaterAttempt(stocked: set<nat>, items: seq<Item>, worlds: seq<World>, i: nat)
    requires worlds != []
    ensures Restoring(stocked, items, worlds, i + 1) <==>
            !worlds[0].markUp && Restoring(stocked, items, worlds[1..], i)
  {
    var rest := worlds[1..];
    if Restoring(stocked, items, worlds, i + 1) {
      forall k | 0 <= k < i ensures !rest[k].markUp { assert rest[k] == worlds[k + 1]; }
    }
    if !worlds[0].markUp && Restoring(stocked, items, rest, i) {
      forall k | 0 <= k < i + 1 ensures !worlds[k].markUp { if k > 0 { assert worlds[k] == rest[k - 1]; } }
    }
  }

  lemma {:induction false} NoRestores(stocked: set<nat>, items: seq<Item>, worlds: seq<World>)
    ensures Restores(stocked, items, worlds) == 0 <==>
            forall j | 0 <= j < |worlds| :: !Restoring(stocked, items, worlds, j)
  {
    if worlds != [] {
      NoRestores(stocked, items, worlds[1..]);
      forall i | 0 <= i < |worlds| - 1
        ensures Restoring(stocked, items, worlds, i + 1) <==>
                !worlds[0].markUp && Restoring(stocked, items, worlds[1..], i)
      {
        LaterAttempt(stocked, items, worlds, i);
      }
      if Restores(stocked, items, worlds) == 0 {
        forall j | 0 <= j < |worlds| ensures !Restoring(stocked, items, worlds, j) {
          if j > 0 { LaterAttempt(stocked, items, worlds, j - 1); }
        }
      } else if RestoreCommits(stocked, items, worlds[0].fault) {
        assert Restoring(stocked, items, worlds, 0);
      } else {
        var i :| 0 <= i < |worlds| - 1 && Restoring(stocked, items, worlds[1..], i);
        assert Restoring(stocked, items, worlds, i + 1);
      }
    }
  }

  lemma {:induction false} OneRestore(stocked: set<nat>, items: seq<Item>, worlds: seq<World>)
    ensures Restores(stocked, items, worlds) == 1 <==> RestoringOnce(stocked, items, worlds)
  {
    if worlds != [] {
      var rest := worlds[1..];
      NoRestores(stocked, items, rest);
      OneRestore(stocked, items, rest);
      OneRestoreStep(stocked, items, worlds);
    }
  }

  /** A restore by the first attempt is the only one, or one of the others is. */
  predicate FirstOrOther(stocked: set<nat>, items: seq<Item>, worlds: seq<World>)
    requires worlds != []
  {
    if RestoreCommits(stocked, items, worlds[0].fault)
    then worlds[0].markUp || forall j | 0 <= j < |worlds| - 1 :: !Restoring(stocked, items, worlds[1..], j)
    else !worlds[0].markUp && RestoringOnce(stocked, items, worlds[1..])
  }

  lemma OneRestoreStep(stocked: set<nat>, items: seq<Item>, worlds: seq<World>)
    requires worlds != []
    ensures RestoringOnce(stocked, items, worlds) <==> FirstOrOther(stocked, items, worlds)
  {
    if RestoringOnce(stocked, items, worlds) { OneIsFirstOrOther(stocked, items, worlds); }
    if FirstOrOther(stocked, items, worlds) { FirstOrOtherIsOne(stocked, items, worlds); }
  }

  lemma OneIsFirstOrOther(stocked: set<nat>, items: seq<Item>, worlds: seq<World>)
    requires worlds != [] && RestoringOnce(stocked, items, worlds)
    ensures FirstOrOther(stocked, items, worlds)
  {
    var i :| 0 <= i < |worlds| && OnlyAt(stocked, items, worlds, i);
    if i == 0 {
      if !worlds[0].markUp {
        forall j | 0 <= j < |worlds| - 1 ensures !Restoring(stocked, items, worlds[1..], j) {
          LaterAttempt(stocked, items, worlds, j);
          assert !Restoring(stocked, items, worlds, j + 1);
        }
      }
    } else {
      assert !Restoring(stocked, items, worlds, 0);
      LaterAttempt(stocked, items, worlds, i - 1);
      forall j | 0 <= j < |worlds| - 1 && j != i - 1 ensures !Restoring(stocked, items, worlds[1..], j) {
        LaterAttempt(stocked, items, worlds, j);
        assert !Restoring(stocked, items, worlds, j + 1);
      }
      assert OnlyAt(stocked, items, worlds[1..], i - 1);
    }
  }

  lemma FirstOrOtherIsOne(stocked: set<nat>, items: seq<Item>, worlds: seq<World>)
    requires worlds != [] && FirstOrOther(stocked, items, worlds)
    ensures RestoringOnce(stocked, items, worlds)
  {
    if RestoreCommits(stocked, items, worlds[0].fault) {
      forall j | 0 <= j < |worlds| && j != 0 ensures !Restoring(stocked, items, worlds, j) {
        LaterAttempt(stocked, items, worlds, j - 1);
      }
      assert OnlyAt(stocked, items, worlds, 0);
    } else {
      var rest := worlds[1..];
      var i :| 0 <= i < |rest| && OnlyAt(stocked, items, rest, i);
      LaterAttempt(stocked, items, worlds, i);
      forall j | 0 <= j < |worlds| && j != i + 1 ensures !Restoring(stocked, items, worlds, j) {
        if j > 0 { LaterAttempt(stocked, items, worlds, j - 1); }
      }
      assert OnlyAt(stocked, items, worlds, i + 1);
    }
  }

  /** The stock of an ordered product is right after the row has been handled exactly if, of the
      attempts up to the first marked one, one and no other meets no fault in its restore. */
  lemma RestoredExactly(db: Db, key: Key, worlds: seq<World>, failUp: bool, p: nat)
    requires key in db.outbox && key.event.OrderPayment? && p in db.stock
    requires FirstQty(db.outbox[key].payload.items, p) > 0
    ensures var items := db.outbox[key].payload.items;
            AfterHandling(db, key, worlds, failUp).stock[p] == db.stock[p] + FirstQty(items, p)
            <==> RestoringOnce(db.stock.Keys, items, worlds)
  {
    var items := db.outbox[key].payload.items;
    StockComesBackEveryTime(db, key, worlds, failUp, p);
    TimesOne(Restores(db.stock.Keys, items, worlds), FirstQty(items, p));
    OneRestore(db.stock.Keys, items, worlds);
  }

  lemma TimesOne(n: nat, q: nat)
    requires q > 0
    ensures n * q == q <==> n == 1
  {
    if n > 1 { OneTimeMore(n - 1, q); }
  }

  // --------------------------------------------------------------------------- a whole pass

  /** The FAIL mark could not be written: the pass ends here. */
  predicate Stops(db: Db, key: Key, worlds: seq<World>, failUp: bool)
    requires key in db.outbox
  {
    !Finishes(db, key, worlds) && !failUp
  }

  /** The tables after the rows of a batch, in turn, or after the first that ends the pass. */
  function AfterFailPass(db: Db, batch: seq<Key>, worlds: Key -> seq<World>, failUp: Key -> bool): (after: Db)
    requires AllIn(db.outbox, batch)
    ensures after.outbox.Keys == db.outbox.Keys
    decreases |batch|
  {
    if batch == [] then db
    else
      var k := batch[0];
      var d := AfterHandling(db, k, worlds(k), failUp(k));
      if Stops(db, k, worlds(k), failUp(k)) then d else AfterFailPass(d, batch[1..], worlds, failUp)
  }

  /** `handleFailedEvents`: the rows of one batch, in turn. */
  method HandleFailedEvents(db: Database, worlds: Key -> seq<World>, failUp: Key -> bool) returns (batch: seq<Key>)
    requires forall k :: |worlds(k)| == 4
    modifies db
    ensures Batch(old(db.outbox), Fail, KeysOf(batch)) && Once(batch) && AllIn(old(db.outbox), batch)
    ensures db.Tables() == AfterFailPass(old(db.Tables()), batch, worlds, failUp)
  {
    batch := FindEventsByStatus(db, Fail);
    ghost var start := db.Tables();
    BatchIsThere(start.outbox, Fail, batch);
    var i := 0;
    while i < |batch|
      invariant 0 <= i <= |batch| && AllIn(db.outbox, batch[i..])
      invariant AfterFailPass(start, batch, worlds, failUp) == AfterFailPass(db.Tables(), batch[i..], worlds, failUp)
    {
      var k := batch[i];
      assert batch[i..][0] == k && batch[i..][1..] == batch[i + 1..];
      var thrown := HandleFailedEvent(db, k, worlds(k), failUp(k));
      if thrown.Threw? { return; }
      i := i + 1;
    }
  }

  /** If no first attempt meets a fault, a pass compensates and marks exactly min(500, the FAIL
      rows), and a row of another status stays as it is. */
  lemma FailPassClears(db: Db, batch: seq<Key>, worlds: Key -> seq<World>, failUp: Key -> bool)
    requires Batch(db.outbox, Fail, KeysOf(batch)) && Once(batch) && AllIn(db.outbox, batch)
    requires forall k | k in batch :: worlds(k) != [] && worlds(k)[0] == World(NoFault, true, true)
    requires forall k | k in batch && !k.event.OrderPayment? :: db.outbox[k].payload.id in db.orders
    ensures var after := AfterFailPass(db, batch, worlds, failUp).outbox;
            && |WithStatus(after, Fail)| == |WithStatus(db.outbox, Fail)| - Min(500, |WithStatus(db.outbox, Fail)|)
            && WithStatus(after, Success) == WithStatus(db.outbox, Success) + KeysOf(batch)
            && WithStatus(after, Init) == WithStatus(db.outbox, Init)
  {
    AllMarked(db, batch, worlds, failUp);
    BatchIsThere(db.outbox, Fail, batch);
    Cleared(db.outbox, AfterFailPass(db, batch, worlds, failUp).outbox, KeysOf(batch), Fail);
  }

  lemma FaultlessAttempt(db: Db, key: Key)
    requires key in db.outbox
    requires !key.event.OrderPayment? ==> db.outbox[key].payload.id in db.orders
    ensures var r := Compensated(db, key, Commits(db, key, World(NoFault, true, true)));
            r.Ok? && r.value.outbox == db.outbox && r.value.orders.Keys == db.orders.Keys
  {
  }

  lemma FirstSuffices(db: Db, key: Key, worlds: seq<World>, failUp: bool)
    requires key in db.outbox && worlds != [] && worlds[0] == World(NoFault, true, true)
    requires !key.event.OrderPayment? ==> db.outbox[key].payload.id in db.orders
    ensures var after := AfterHandling(db, key, worlds, failUp);
            && after.outbox == db.outbox[key := db.outbox[key].(status := Success)]
            && after.orders.Keys == db.orders.Keys
    ensures !Stops(db, key, worlds, failUp)
  {
    FaultlessAttempt(db, key);
    var d := Compensated(db, key, Commits(db, key, worlds[0])).value;
    assert AfterHandling(db, key, worlds, failUp) == SetStatus(d, key, Success).value;
  }

  lemma {:induction false} AllMarked(db: Db, batch: seq<Key>, worlds: Key -> seq<World>, failUp: Key -> bool)
    requires Once(batch) && AllIn(db.outbox, batch)
    requires forall k | k in batch :: worlds(k) != [] && worlds(k)[0] == World(NoFault, true, true)
    requires forall k | k in batch && !k.event.OrderPayment? :: db.outbox[k].payload.id in db.orders
    ensures var after := AfterFailPass(db, batch, worlds, failUp).outbox;
            && (forall k | k in batch :: after[k] == db.outbox[k].(status := Success))
            && forall k | k in db.outbox && k !in batch :: after[k] == db.outbox[k]
    decreases |batch|
  {
    if batch != [] {
      var k, rest := batch[0], batch[1..];
      FirstSuffices(db, k, worlds(k), failUp(k));
      var d := AfterHandling(db, k, worlds(k), failUp(k));
      assert k !in rest;
      AllMarked(d, rest, worlds, failUp);
    }
  }

  // ---------------------------------------------------------------- what the saga says of it

  /** The task of a row after `n` attempts that were not finished. */
  function TaskAfter(n: nat): Task {
    if n < ATTEMPTS then Task(Compensating, n) else Task(GivingUp, n - 1)
  }

  /** `n` restores by one task. */
  function RestoreLog(t: TaskId, id: nat, n: nat): multiset<Entry> {
    multiset{}[StockRestored(id) := n][RestoredBy(t) := n]
  }

  lemma RestoreLogMore(t: TaskId, id: nat, n: nat)
    ensures RestoreLog(t, id, 1) + RestoreLog(t, id, n) == RestoreLog(t, id, n + 1)
    ensures RestoreLog(t, id, 0) == multiset{}
    ensures RestoreLog(t, id, 1) == multiset{StockRestored(id), RestoredBy(t)}
  {
  }

  /** The restores an attempt enters in the log. */
  function Restore1(db: Db, key: Key, w: World): nat
    requires key in db.outbox
  {
    if key.event.OrderPayment? && Commits(db, key, w) then 1 else 0
  }

  function RestoreN(db: Db, key: Key, worlds: seq<World>): nat
    requires key in db.outbox
  {
    if key.event.OrderPayment? then Restores(db.stock.Keys, db.outbox[key].payload.items, worlds) else 0
  }

  /** The saga after the write of an attempt. */
  function Written(s: State, t: TaskId, n: nat, w: World): State
    requires t.key in s.db.outbox
  {
    match Compensated(s.db, t.key, Commits(s.db, t.key, w))
    case Err(_) => s.(tasks := s.tasks[t := TaskAfter(n + 1)])
    case Ok(d) =>
      s.(db := d, tasks := s.tasks[t := Task(MarkingCompensated, n)],
         log := s.log + RestoreLog(t, s.db.outbox[t.key].payload.id, Restore1(s.db, t.key, w)))
  }

  lemma WriteIsAStep(s: State, t: TaskId, n: nat, w: World)
    requires n < ATTEMPTS && t.key in s.db.outbox && t in s.tasks && s.tasks[t] == TaskAfter(n)
    ensures var step := Compensate(t, Commits(s.db, t.key, w));
            Enabled(s, step) && Apply(s, step) == Written(s, t, n, w)
  {
    RestoreLogMore(t, s.db.outbox[t.key].payload.id, 0);
  }

  /** The saga after a marked attempt. */
  function Ended(s: State, t: TaskId, d: Db, n: nat): State
    requires t.key in d.outbox && t.key in s.db.outbox
  {
    s.(db := SetStatus(d, t.key, Success).value, tasks := s.tasks - {t},
       log := s.log + RestoreLog(t, s.db.outbox[t.key].payload.id, n))
  }

  lemma MarkIsAStep(s: State, t: TaskId, n: nat, w: World)
    requires n < ATTEMPTS && t.key in s.db.outbox && t in s.tasks
    requires Compensated(s.db, t.key, Commits(s.db, t.key, w)).Ok?
    ensures var d := Compensated(s.db, t.key, Commits(s.db, t.key, w)).value;
            var (mid, step) := (Written(s, t, n, w), MarkCompensated(t, w.markUp));
            && Enabled(mid, step)
            && Apply(mid, step) == if w.markUp then Ended(s, t, d, Restore1(s.db, t.key, w))
                                   else mid.(tasks := s.tasks[t := TaskAfter(n + 1)])
  {
    var mid := Written(s, t, n, w);
    assert mid.tasks - {t} == s.tasks - {t};
    assert mid.tasks[t := TaskAfter(n + 1)] == s.tasks[t := TaskAfter(n + 1)];
  }

  /** The saga after an attempt that was not the last. */
  function Again(s: State, t: TaskId, n: nat, w: World): State
    requires t.key in s.db.outbox
  {
    Written(s, t, n, w).(tasks := s.tasks[t := TaskAfter(n + 1)])
  }

  /** The saga after a row has been handled. */
  function RowDone(s: State, t: TaskId, worlds: seq<World>, failUp: bool): State
    requires t.key in s.db.outbox
  {
    s.(db := AfterHandling(s.db, t.key, worlds, failUp), tasks := s.tasks - {t},
       log := s.log + RestoreLog(t, s.db.outbox[t.key].payload.id, RestoreN(s.db, t.key, worlds)))
  }

  /** One attempt is a run, to the end of the row or to its next attempt. */
  lemma AttemptIsARun(s: State, t: TaskId, n: nat, w: World) returns (steps: seq<Step>)
    requires n < ATTEMPTS && t.key in s.db.outbox && t in s.tasks && s.tasks[t] == TaskAfter(n)
    ensures match Compensated(s.db, t.key, Commits(s.db, t.key, w))
            case Err(_) => Goes(s, steps, Again(s, t, n, w))
            case Ok(d) =>
              Goes(s, steps, if w.markUp then Ended(s, t, d, Restore1(s.db, t.key, w)) else Again(s, t, n, w))
  {
    var write := Compensate(t, Commits(s.db, t.key, w));
    WriteIsAStep(s, t, n, w);
    GoesOnce(s, write);
    steps := [write];
    if Compensated(s.db, t.key, Commits(s.db, t.key, w)).Ok? {
      MarkIsAStep(s, t, n, w);
      GoesOn(s, steps, Written(s, t, n, w), MarkCompensated(t, w.markUp));
      steps := steps + [MarkCompensated(t, w.markUp)];
    }
  }

  lemma RowEndsHere(s: State, t: TaskId, worlds: seq<World>, failUp: bool)
    requires t.key in s.db.outbox && worlds != [] && worlds[0].markUp
    requires Compensated(s.db, t.key, Commits(s.db, t.key, worlds[0])).Ok?
    ensures RowDone(s, t, worlds, failUp)
            == Ended(s, t, Compensated(s.db, t.key, Commits(s.db, t.key, worlds[0])).value,
                     Restore1(s.db, t.key, worlds[0]))
  {
  }

  lemma TablesGoOn(s: State, t: TaskId, n: nat, worlds: seq<World>, failUp: bool)
    requires t.key in s.db.outbox && worlds != []
    requires Compensated(s.db, t.key, Commits(s.db, t.key, worlds[0])).Ok? ==> !worlds[0].markUp
    ensures var next := Again(s, t, n, worlds[0]);
            && t.key in next.db.outbox && next.db.outbox[t.key] == s.db.outbox[t.key]
            && AfterHandling(next.db, t.key, worlds[1..], failUp) == AfterHandling(s.db, t.key, worlds, failUp)
            && next.tasks - {t} == s.tasks - {t}
  {
  }

  lemma LogsAdd(log: multiset<Entry>, t: TaskId, id: nat, first: nat, rest: nat)
    requires first <= 1
    ensures log + RestoreLog(t, id, first) + RestoreLog(t, id, rest) == log + RestoreLog(t, id, first + rest)
  {
    RestoreLogMore(t, id, rest);
    RestoreLogMore(t, id, 0);
  }

  lemma RowGoesOn(s: State, t: TaskId, n: nat, worlds: seq<World>, failUp: bool)
    requires t.key in s.db.outbox && worlds != []
    requires Compensated(s.db, t.key, Commits(s.db, t.key, worlds[0])).Ok? ==> !worlds[0].markUp
    ensures t.key in Again(s, t, n, worlds[0]).db.outbox
    ensures RowDone(Again(s, t, n, worlds[0]), t, worlds[1..], failUp) == RowDone(s, t, worlds, failUp)
  {
    var next := Again(s, t, n, worlds[0]);
    var id := s.db.outbox[t.key].payload.id;
    TablesGoOn(s, t, n, worlds, failUp);
    LogGoesOn(s, t, n, worlds);
    LogsAdd(s.log, t, id, Restore1(s.db, t.key, worlds[0]), RestoreN(next.db, t.key, worlds[1..]));
    SameButLog(s, t, n, worlds[0]);
  }

  lemma SameButLog(s: State, t: TaskId, n: nat, w: World)
    requires t.key in s.db.outbox
    ensures var next := Again(s, t, n, w);
            && next.book == s.book && next.topics == s.topics && next.recoveries == s.recoveries
            && next.log == s.log + RestoreLog(t, s.db.outbox[t.key].payload.id, Restore1(s.db, t.key, w))
  {
    RestoreLogMore(t, s.db.outbox[t.key].payload.id, 0);
  }

  lemma LogGoesOn(s: State, t: TaskId, n: nat, worlds: seq<World>)
    requires t.key in s.db.outbox && worlds != []
    requires Compensated(s.db, t.key, Commits(s.db, t.key, worlds[0])).Ok? ==> !worlds[0].markUp
    ensures var next := Again(s, t, n, worlds[0]);
            && t.key in next.db.outbox && next.db.outbox == s.db.outbox && next.db.stock.Keys == s.db.stock.Keys
            && RestoreN(s.db, t.key, worlds) == Restore1(s.db, t.key, worlds[0]) + RestoreN(next.db, t.key, worlds[1..])
  {
  }

  /** What `HandleFailedEvent` does to the tables, the saga can do: handling one FAIL row is a run
      that ends its task and enters every restore in the log. */
  lemma {:induction false} HandlingIsARun(s: State, t: TaskId, worlds: seq<World>, failUp: bool)
    returns (steps: seq<Step>)
    requires t.key in s.db.outbox && t in s.tasks && |worlds| <= ATTEMPTS
    requires s.tasks[t] == TaskAfter(ATTEMPTS - |worlds|)
    ensures Goes(s, steps, RowDone(s, t, worlds, failUp))
    decreases |worlds|
  {
    if worlds == [] {
      RestoreLogMore(t, s.db.outbox[t.key].payload.id, 0);
      steps := [GiveUp(t, failUp)];
      GoesOnce(s, steps[0]);
    } else {
      var n := ATTEMPTS - |worlds|;
      steps := AttemptIsARun(s, t, n, worlds[0]);
      if Compensated(s.db, t.key, Commits(s.db, t.key, worlds[0])).Ok? && worlds[0].markUp {
        RowEndsHere(s, t, worlds, failUp);
      } else {
        RowGoesOn(s, t, n, worlds, failUp);
        var next := Again(s, t, n, worlds[0]);
        var more := HandlingIsARun(next, t, worlds[1..], failUp);
        GoesFar(s, steps, next, more, RowDone(s, t, worlds, failUp));
        steps := steps + more;
      }
    }
  }

  // ------------------------------------------------------------- and of the whole pass

  /** The saga after the rest of a pass: the rows handled, those behind the end of it let go. */
  function PassDone(s: State, poller: nat, batch: seq<Key>, worlds: Key -> seq<World>, failUp: Key -> bool): State
    requires AllIn(s.db.outbox, batch)
    decreases |batch|
  {
    if batch == [] then s
    else
      var k := batch[0];
      var next := RowDone(s, TaskId(poller, k), worlds(k), failUp(k));
      if Stops(s.db, k, worlds(k), failUp(k)) then next.(tasks := s.tasks - Tasks(poller, batch))
      else PassDone(next, poller, batch[1..], worlds, failUp)
  }

  function Tasks(poller: nat, batch: seq<Key>): set<TaskId> {
    set k | k in KeysOf(batch) :: TaskId(poller, k)
  }

  lemma {:induction false} LettingGo(s: State, poller: nat, batch: seq<Key>) returns (steps: seq<Step>)
    requires Once(batch) && forall k | k in batch :: TaskId(poller, k) in s.tasks
    ensures Goes(s, steps, s.(tasks := s.tasks - Tasks(poller, batch)))
    decreases |batch|
  {
    if batch == [] {
      assert s.tasks - Tasks(poller, []) == s.tasks;
      steps := [];
    } else {
      var (t, rest) := (TaskId(poller, batch[0]), batch[1..]);
      assert batch[0] !in rest;
      GoesOnce(s, Abandon(t));
      var more := LettingGo(Done(s, t), poller, rest);
      assert batch == [batch[0]] + rest;
      FirstTask(s.tasks, poller, batch[0], rest);
      GoesFar(s, [Abandon(t)], Done(s, t), more, s.(tasks := s.tasks - Tasks(poller, batch)));
      steps := [Abandon(t)] + more;
    }
  }

  lemma FirstTask(tasks: map<TaskId, Task>, poller: nat, key: Key, rest: seq<Key>)
    ensures tasks - Tasks(poller, [key] + rest) == tasks - {TaskId(poller, key)} - Tasks(poller, rest)
  {
    assert KeysOf([key] + rest) == {key} + KeysOf(rest);
    assert Tasks(poller, [key] + rest) == {TaskId(poller, key)} + Tasks(poller, rest);
  }

  /** The rest of a FAIL pass is a run. */
  lemma {:induction false} RestIsARun(s: State, poller: nat, batch: seq<Key>, worlds: Key -> seq<World>,
                                      failUp: Key -> bool) returns (steps: seq<Step>)
    requires Once(batch) && AllIn(s.db.outbox, batch) && forall k | k in batch :: |worlds(k)| == ATTEMPTS
    requires forall k | k in batch :: TaskId(poller, k) in s.tasks && s.tasks[TaskId(poller, k)] == TaskAfter(0)
    ensures Goes(s, steps, PassDone(s, poller, batch, worlds, failUp))
    decreases |batch|
  {
    if batch == [] {
      steps := [];
    } else {
      var (k, rest) := (batch[0], batch[1..]);
      var t := TaskId(poller, k);
      var next := RowDone(s, t, worlds(k), failUp(k));
      assert k !in rest;
      steps := HandlingIsARun(s, t, worlds(k), failUp(k));
      var more;
      if Stops(s.db, k, worlds(k), failUp(k)) {
        more := LettingGo(next, poller, rest);
        assert batch == [k] + rest;
        FirstTask(s.tasks, poller, k, rest);
      } else {
        more := RestIsARun(next, poller, rest, worlds, failUp);
      }
      GoesFar(s, steps, next, more, PassDone(s, poller, batch, worlds, failUp));
      steps := steps + more;
    }
  }

  lemma {:induction false} PassTables(s: State, poller: nat, batch: seq<Key>, worlds: Key -> seq<World>,
                                      failUp: Key -> bool)
    requires AllIn(s.db.outbox, batch)
    ensures var e := PassDone(s, poller, batch, worlds, failUp);
            && e.db == AfterFailPass(s.db, batch, worlds, failUp)
            && e.tasks == s.tasks - Tasks(poller, batch)
            && e.topics == s.topics && e.recoveries == s.recoveries && e.book == s.book
    decreases |batch|
  {
    if batch == [] {
      assert s.tasks - Tasks(poller, []) == s.tasks;
    } else {
      var (k, rest) := (batch[0], batch[1..]);
      var next := RowDone(s, TaskId(poller, k), worlds(k), failUp(k));
      assert batch == [k] + rest;
      FirstTask(s.tasks, poller, k, rest);
      if !Stops(s.db, k, worlds(k), failUp(k)) { PassTables(next, poller, rest, worlds, failUp); }
    }
  }

  /** The whole FAIL pass is a run of the saga: it leaves the tables `HandleFailedEvents` leaves,
      no task of its own, and the topics and recoveries as they were. */
  lemma FailPassIsARun(s: State, poller: nat, batch: seq<Key>, worlds: Key -> seq<World>, failUp: Key -> bool)
    returns (steps: seq<Step>)
    requires Idle(s, poller) && Batch(s.db.outbox, Fail, KeysOf(batch)) && Once(batch)
    requires forall k :: |worlds(k)| == 4
    ensures AllIn(s.db.outbox, batch) && Legal(s, steps)
    ensures var e := Exec(s, steps);
            && e.db == AfterFailPass(s.db, batch, worlds, failUp) && e.tasks == s.tasks
            && e.topics == s.topics && e.recoveries == s.recoveries && e.book == s.book
  {
    BatchIsThere(s.db.outbox, Fail, batch);
    var read := WithTasks(s, poller, KeysOf(batch), Compensating);
    GoesOnce(s, PollFail(poller, KeysOf(batch)));
    var more := RestIsARun(read, poller, batch, worlds, failUp);
    PassTables(read, poller, batch, worlds, failUp);
    NoTasksLeft(s, poller, batch);
    var e := PassDone(read, poller, batch, worlds, failUp);
    GoesFar(s, [PollFail(poller, KeysOf(batch))], read, more, e);
    steps := [PollFail(poller, KeysOf(batch))] + more;
  }

  lemma NoTasksLeft(s: State, poller: nat, batch: seq<Key>)
    requires Idle(s, poller)
    ensures WithTasks(s, poller, KeysOf(batch), Compensating).tasks - Tasks(poller, batch) == s.tasks
  {
  }
}
