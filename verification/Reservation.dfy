/** The reservation window: a sorted set per product whose members are reserved units, scored
    with the second they expire. Every reservation inserts its units one by one; every count
    first removes what has expired. */
module Reservation {

  /** Seconds a reserved unit stays. */
  const TTL := 300

  /** `user:<userId>:<reservationId>:seq:<seq>`. */
  datatype Member = Member(userId: nat, reservationId: nat, seq_: nat)

  /** A sorted set: each member with its score. */
  type SortedSet = map<Member, int>

  // --------------------------------------------------------------- the set as a function

  function Block(userId: nat, reservationId: nat, quantity: nat): set<Member> {
    set k | 1 <= k <= quantity :: Member(userId, reservationId, k)
  }

  /** All members of one reservation, with one score. */
  function Inserted(z: SortedSet, userId: nat, reservationId: nat, quantity: nat, score: int): SortedSet {
    z + map m | m in Block(userId, reservationId, quantity) :: score
  }

  /** `zremrangebyscore` from -inf to `now`, both ends included. */
  function Pruned(z: SortedSet, now: int): SortedSet {
    map m | m in z && z[m] > now :: z[m]
  }

  // ------------------------------------------------------------------ the log it refines

  datatype Admission = Admission(userId: nat, reservationId: nat, units: nat, at: int)

  /** What has happened to one product's set. */
  datatype Event = Admit(admission: Admission) | Prune(now: int)

  function Units(live: seq<Admission>): nat {
    if live == [] then 0 else Units(live[..|live| - 1]) + live[|live| - 1].units
  }

  /** The admissions unexpired at a time. */
  function Unexpired(all: seq<Admission>, now: int): seq<Admission> {
    if all == [] then []
    else
      var front := Unexpired(all[..|all| - 1], now);
      var last := all[|all| - 1];
      if last.at + TTL > now then front + [last] else front
  }

  function Admissions(log: seq<Event>): seq<Admission> {
    if log == [] then []
    else
      match log[|log| - 1]
      case Admit(a) => Admissions(log[..|log| - 1]) + [a]
      case Prune(_) => Admissions(log[..|log| - 1])
  }

  /** The admissions no prune has removed since they were made, whatever the clock did. */
  function Live(log: seq<Event>): seq<Admission> {
    if log == [] then []
    else
      match log[|log| - 1]
      case Admit(a) => Live(log[..|log| - 1]) + [a]
      case Prune(now) => Unexpired(Live(log[..|log| - 1]), now)
  }

  function SetOf(live: seq<Admission>): SortedSet {
    if live == [] then map[]
    else
      var a := live[|live| - 1];
      Inserted(SetOf(live[..|live| - 1]), a.userId, a.reservationId, a.units, a.at + TTL)
  }

  predicate Knows(all: seq<Admission>, id: nat) {
    exists i | 0 <= i < |all| :: all[i].reservationId == id
  }

  /** Reservation ids are random UUIDs: no two admissions share one. */
  predicate FreshIds(all: seq<Admission>) {
    all == [] || (FreshIds(all[..|all| - 1]) && !Knows(all[..|all| - 1], all[|all| - 1].reservationId))
  }

  lemma {:induction false} BlockSize(userId: nat, id: nat, quantity: nat)
    ensures |Block(userId, id, quantity)| == quantity
  {
    if quantity == 0 {
      assert Block(userId, id, 0) == {};
    } else {
      BlockSize(userId, id, quantity - 1);
      assert Block(userId, id, quantity) == Block(userId, id, quantity - 1) + {Member(userId, id, quantity)};
    }
  }

  lemma {:induction false} MembersAreKnown(live: seq<Admission>, m: Member)
    requires m in SetOf(live)
    ensures Knows(live, m.reservationId)
  {
    var a := live[|live| - 1];
    if m !in Block(a.userId, a.reservationId, a.units) {
      MembersAreKnown(live[..|live| - 1], m);
      var i :| 0 <= i < |live| - 1 && live[..|live| - 1][i].reservationId == m.reservationId;
      assert live[i].reservationId == m.reservationId;
    } else {
      assert live[|live| - 1].reservationId == m.reservationId;
    }
  }

  lemma FreshFront(front: seq<Admission>, a: Admission)
    ensures FreshIds(front + [a]) <==> FreshIds(front) && !Knows(front, a.reservationId)
  {
    assert (front + [a])[..|front|] == front;
  }

  lemma NewBlock(front: seq<Admission>, a: Admission)
    requires !Knows(front, a.reservationId)
    ensures Block(a.userId, a.reservationId, a.units) !! SetOf(front).Keys
  {
    forall m | m in SetOf(front) ensures m !in Block(a.userId, a.reservationId, a.units) {
      MembersAreKnown(front, m);
    }
  }

  lemma SetOfMore(front: seq<Admission>, a: Admission)
    ensures SetOf(front + [a]) == Inserted(SetOf(front), a.userId, a.reservationId, a.units, a.at + TTL)
    ensures Units(front + [a]) == Units(front) + a.units
  {
    assert (front + [a])[..|front|] == front;
  }

  lemma InsertedSize(z: SortedSet, userId: nat, id: nat, quantity: nat, score: int)
    requires Block(userId, id, quantity) !! z.Keys
    ensures |Inserted(z, userId, id, quantity, score)| == |z| + quantity
  {
    BlockSize(userId, id, quantity);
    assert Inserted(z, userId, id, quantity, score).Keys == z.Keys + Block(userId, id, quantity);
  }

  /** The set has one member for each live unit: each insertion adds exactly its quantity. */
  lemma {:induction false} SetSize(live: seq<Admission>)
    requires FreshIds(live)
    ensures |SetOf(live)| == Units(live)
  {
    if live != [] {
      var front, a := live[..|live| - 1], live[|live| - 1];
      assert live == front + [a];
      FreshFront(front, a);
      NewBlock(front, a);
      SetSize(front);
      SetOfMore(front, a);
      InsertedSize(SetOf(front), a.userId, a.reservationId, a.units, a.at + TTL);
    }
  }

  lemma PruneInserted(z: SortedSet, userId: nat, id: nat, quantity: nat, score: int, now: int)
    requires Block(userId, id, quantity) !! z.Keys
    ensures Pruned(Inserted(z, userId, id, quantity, score), now) ==
            if score > now then Inserted(Pruned(z, now), userId, id, quantity, score) else Pruned(z, now)
  {
    var block := Block(userId, id, quantity);
    var left := Pruned(Inserted(z, userId, id, quantity, score), now);
    var right := if score > now then Inserted(Pruned(z, now), userId, id, quantity, score) else Pruned(z, now);
    forall m ensures m in left <==> m in right { assert m in block ==> m !in z; }
    forall m | m in left ensures left[m] == right[m] { assert m in block ==> m !in z; }
    assert left == right;
  }

  /** Removing expired members is removing expired admissions. */
  lemma {:induction false} PruneSet(live: seq<Admission>, now: int)
    requires FreshIds(live)
    ensures Pruned(SetOf(live), now) == SetOf(Unexpired(live, now))
  {
    if live == [] {
      assert Pruned(map[], now) == map[];
    } else {
      var front, a := live[..|live| - 1], live[|live| - 1];
      assert live == front + [a];
      FreshFront(front, a);
      NewBlock(front, a);
      PruneSet(front, now);
      SetOfMore(front, a);
      SetOfMore(Unexpired(front, now), a);
      PruneInserted(SetOf(front), a.userId, a.reservationId, a.units, a.at + TTL, now);
    }
  }

  lemma {:induction false} UnexpiredIsPart(all: seq<Admission>, now: int, i: nat)
    requires i < |Unexpired(all, now)|
    ensures exists j | 0 <= j < |all| :: all[j] == Unexpired(all, now)[i] && all[j].at + TTL > now
  {
    var front, last := all[..|all| - 1], all[|all| - 1];
    if i < |Unexpired(front, now)| {
      UnexpiredIsPart(front, now, i);
      var j :| 0 <= j < |front| && front[j] == Unexpired(front, now)[i] && front[j].at + TTL > now;
      assert all[j] == front[j];
    } else {
      assert all[|all| - 1] == last;
    }
  }

  lemma {:induction false} UnexpiredFresh(all: seq<Admission>, now: int)
    requires FreshIds(all)
    ensures FreshIds(Unexpired(all, now))
  {
    if all != [] {
      var front, last := all[..|all| - 1], all[|all| - 1];
      UnexpiredFresh(front, now);
      forall i | 0 <= i < |Unexpired(front, now)| ensures Unexpired(front, now)[i].reservationId != last.reservationId {
        UnexpiredIsPart(front, now, i);
      }
      FreshFront(Unexpired(front, now), last);
    }
  }

  lemma {:induction false} LiveIsPart(log: seq<Event>, i: nat)
    requires i < |Live(log)|
    ensures exists j | 0 <= j < |Admissions(log)| :: Admissions(log)[j] == Live(log)[i]
  {
    var front := log[..|log| - 1];
    match log[|log| - 1]
    case Admit(a) =>
      if i < |Live(front)| {
        LiveIsPart(front, i);
        var j :| 0 <= j < |Admissions(front)| && Admissions(front)[j] == Live(front)[i];
        assert Admissions(log)[j] == Live(log)[i];
      } else {
        assert Admissions(log)[|Admissions(front)|] == Live(log)[i];
      }
    case Prune(now) =>
      UnexpiredIsPart(Live(front), now, i);
      var k :| 0 <= k < |Live(front)| && Live(front)[k] == Live(log)[i];
      LiveIsPart(front, k);
      var j :| 0 <= j < |Admissions(front)| && Admissions(front)[j] == Live(front)[k];
      assert Admissions(log)[j] == Live(log)[i];
  }

  lemma {:induction false} LiveFresh(log: seq<Event>)
    requires FreshIds(Admissions(log))
    ensures FreshIds(Live(log))
  {
    if log != [] {
      var front := log[..|log| - 1];
      match log[|log| - 1]
      case Admit(a) =>
        FreshFront(Admissions(front), a);
        LiveFresh(front);
        forall i | 0 <= i < |Live(front)| ensures Live(front)[i].reservationId != a.reservationId {
          LiveIsPart(front, i);
        }
        FreshFront(Live(front), a);
      case Prune(now) =>
        LiveFresh(front);
        UnexpiredFresh(Live(front), now);
    }
  }

  // ----------------------------------------------------------------- a clock going forward

  function TimeOf(e: Event): int {
    match e case Admit(a) => a.at case Prune(now) => now
  }

  predicate Forward(log: seq<Event>) {
    forall i, j | 0 <= i < j < |log| :: TimeOf(log[i]) <= TimeOf(log[j])
  }

  lemma {:induction false} UnexpiredTwice(all: seq<Admission>, a: int, b: int)
    requires a <= b
    ensures Unexpired(Unexpired(all, a), b) == Unexpired(all, b)
  {
    if all != [] {
      var front, last := all[..|all| - 1], all[|all| - 1];
      UnexpiredTwice(front, a, b);
      if last.at + TTL > a {
        assert (Unexpired(front, a) + [last])[..|Unexpired(front, a)|] == Unexpired(front, a);
      }
    }
  }

  lemma {:induction false} AllUnexpired(all: seq<Admission>, now: int)
    requires forall i | 0 <= i < |all| :: all[i].at + TTL > now
    ensures Unexpired(all, now) == all
  {
    if all != [] {
      AllUnexpired(all[..|all| - 1], now);
      assert all[..|all| - 1] + [all[|all| - 1]] == all;
    }
  }

  /** With a clock that never goes back, what a prune leaves are exactly the admissions of all
      time that are unexpired at its time. */
  lemma {:induction false} LiveAtPrune(log: seq<Event>, now: int)
    requires Forward(log + [Prune(now)])
    ensures Unexpired(Live(log), now) == Unexpired(Admissions(log), now)
  {
    if log != [] {
      var front := log[..|log| - 1];
      var e := log[|log| - 1];
      forall i, j | 0 <= i < j < |front + [Prune(now)]|
        ensures TimeOf((front + [Prune(now)])[i]) <= TimeOf((front + [Prune(now)])[j])
      {
        var whole := log + [Prune(now)];
        assert TimeOf(whole[i]) <= TimeOf(whole[if j == |front| then j + 1 else j]);
      }
      LiveAtPrune(front, now);
      match e
      case Admit(a) =>
        assert (Live(front) + [a])[..|Live(front)|] == Live(front);
        assert (Admissions(front) + [a])[..|Admissions(front)|] == Admissions(front);
      case Prune(before) =>
        assert before <= now by {
          var whole := log + [Prune(now)];
          assert TimeOf(whole[|log| - 1]) <= TimeOf(whole[|log|]);
        }
        UnexpiredTwice(Live(front), before, now);
    }
  }

  lemma {:induction false} UnitsFall(all: seq<Admission>, a: int, b: int)
    requires a <= b
    ensures Units(Unexpired(all, b)) <= Units(Unexpired(all, a))
  {
    if all != [] {
      var front, last := all[..|all| - 1], all[|all| - 1];
      UnitsFall(front, a, b);
      assert (Unexpired(front, a) + [last])[..|Unexpired(front, a)|] == Unexpired(front, a);
      assert (Unexpired(front, b) + [last])[..|Unexpired(front, b)|] == Unexpired(front, b);
    }
  }

  /** The set holds the members of the live admissions and no others. */
  ghost predicate Refines(z: SortedSet, log: seq<Event>) {
    FreshIds(Admissions(log)) && SetOf(Live(log)) == z
  }

  lemma LogAdmit(log: seq<Event>, a: Admission)
    ensures Admissions(log + [Admit(a)]) == Admissions(log) + [a]
    ensures Live(log + [Admit(a)]) == Live(log) + [a]
  {
    var after := log + [Admit(a)];
    assert after[|after| - 1] == Admit(a);
    assert after[..|after| - 1] == log;
  }

  lemma AdmittedIds(log: seq<Event>, a: Admission)
    requires FreshIds(Admissions(log)) && !Knows(Admissions(log), a.reservationId)
    ensures FreshIds(Admissions(log + [Admit(a)]))
    ensures Block(a.userId, a.reservationId, a.units) !! SetOf(Live(log)).Keys
  {
    LogAdmit(log, a);
    FreshFront(Admissions(log), a);
    LiveFresh(log + [Admit(a)]);
    FreshFront(Live(log), a);
    NewBlock(Live(log), a);
  }

  lemma AdmittedSet(log: seq<Event>, userId: nat, quantity: nat, now: int, id: nat)
    ensures SetOf(Live(log + [Admit(Admission(userId, id, quantity, now))])) ==
            Inserted(SetOf(Live(log)), userId, id, quantity, now + TTL)
  {
    LogAdmit(log, Admission(userId, id, quantity, now));
    SetOfMore(Live(log), Admission(userId, id, quantity, now));
  }

  /** What an insertion does to the set and to the history. */
  lemma Admitted(z: SortedSet, log: seq<Event>, userId: nat, quantity: nat, now: int, id: nat)
    requires Refines(z, log) && !Knows(Admissions(log), id)
    ensures Refines(Inserted(z, userId, id, quantity, now + TTL), log + [Admit(Admission(userId, id, quantity, now))])
    ensures |Inserted(z, userId, id, quantity, now + TTL)| == |z| + quantity
  {
    AdmittedIds(log, Admission(userId, id, quantity, now));
    AdmittedSet(log, userId, quantity, now, id);
    InsertedSize(z, userId, id, quantity, now + TTL);
  }

  /** What a prune does to the set, and what the count after it is. */
  lemma Counted(z: SortedSet, log: seq<Event>, now: int)
    requires Refines(z, log)
    ensures Admissions(log + [Prune(now)]) == Admissions(log)
    ensures Refines(Pruned(z, now), log + [Prune(now)])
    ensures |Pruned(z, now)| == Units(Live(log + [Prune(now)]))
    ensures Forward(log + [Prune(now)]) ==> Live(log + [Prune(now)]) == Unexpired(Admissions(log), now)
  {
    assert (log + [Prune(now)])[..|log|] == log;
    LiveFresh(log);
    PruneSet(Live(log), now);
    LiveFresh(log + [Prune(now)]);
    SetSize(Live(log + [Prune(now)]));
    if Forward(log + [Prune(now)]) { LiveAtPrune(log, now); }
  }

  lemma NoneYet(z: SortedSet, userId: nat, id: nat, score: int)
    ensures Inserted(z, userId, id, 0, score) == z
  {
    assert Block(userId, id, 0) == {};
  }

  lemma OneMore(z: SortedSet, userId: nat, id: nat, k: nat, score: int)
    requires k >= 1
    ensures Inserted(z, userId, id, k - 1, score)[Member(userId, id, k) := score] == Inserted(z, userId, id, k, score)
  {
    assert Block(userId, id, k) == Block(userId, id, k - 1) + {Member(userId, id, k)};
  }

  // --------------------------------------------------------------------------- the store

  /** `ProductStockCacheStore`, the sorted set of one product. `log` is history. */
  class ReservationStore {
    var members: SortedSet
    ghost var log: seq<Event>

    ghost predicate Valid()
      reads this
    {
      Refines(members, log)
    }

    constructor ()
      ensures Valid() && log == []
    {
      members, log := map[], [];
    }

    /** One `zadd` for each unit. */
    method InsertUnits(userId: nat, quantity: nat, score: int, reservationId: nat)
      modifies this`members
      ensures members == Inserted(old(members), userId, reservationId, quantity, score)
    {
      NoneYet(members, userId, reservationId, score);
      var k := 1;
      while k <= quantity
        invariant 1 <= k <= quantity + 1
        invariant members == Inserted(old(members), userId, reservationId, k - 1, score)
      {
        OneMore(old(members), userId, reservationId, k, score);
        members := members[Member(userId, reservationId, k) := score];
        k := k + 1;
      }
    }

    /** `reserveStock`. */
    method ReserveStock(userId: nat, quantity: nat, now: int, reservationId: nat)
      requires Valid() && !Knows(Admissions(log), reservationId)
      modifies this
      ensures Valid() && log == old(log) + [Admit(Admission(userId, reservationId, quantity, now))]
      ensures members == Inserted(old(members), userId, reservationId, quantity, now + 300)
      ensures |members| == |old(members)| + quantity
    {
      Admitted(members, log, userId, quantity, now, reservationId);
      InsertUnits(userId, quantity, now + TTL, reservationId);
      log := log + [Admit(Admission(userId, reservationId, quantity, now))];
    }

    /** `countReservedStock`: prune, then count. */
    method CountReservedStock(now: int) returns (count: nat)
      requires Valid()
      modifies this
      ensures Valid() && log == old(log) + [Prune(now)]
      ensures members == Pruned(old(members), now)
      ensures count == Units(Live(log))
      ensures Forward(log) ==> count == Units(Unexpired(Admissions(old(log)), now))
    {
      ghost var before := members;
      members := map m | m in members && members[m] > now :: members[m];
      assert members == Pruned(before, now);
      Counted(before, log, now);
      log := log + [Prune(now)];
      count := |members|;
    }
  }

  /** 1.2 times the stock, rounded down. */
  function Capacity(stock: nat): nat {
    (6 * stock) / 5
  }

  /** It admits what is at most six fifths of the stock, and no more. */
  lemma CapacityIs(stock: nat, n: int)
    ensures n <= Capacity(stock) <==> 5 * n <= 6 * stock
  {
  }

  /** The units admitted after a time. */
  function UnitsSince(all: seq<Admission>, from: int): nat {
    if all == [] then 0 else (if all[0].at > from then all[0].units else 0) + UnitsSince(all[1..], from)
  }

  lemma {:induction false} UnitsSinceMore(all: seq<Admission>, a: Admission, from: int)
    ensures UnitsSince(all + [a], from) == UnitsSince(all, from) + if a.at > from then a.units else 0
  {
    if all == [] {
      assert ([] + [a])[1..] == [];
    } else {
      assert (all + [a])[1..] == all[1..] + [a];
      UnitsSinceMore(all[1..], a, from);
    }
  }

  /** What is unexpired is what was admitted in the last 300 seconds. */
  lemma {:induction false} UnexpiredUnits(all: seq<Admission>, now: int)
    ensures Units(Unexpired(all, now)) == UnitsSince(all, now - 300)
  {
    if all != [] {
      var front, last := all[..|all| - 1], all[|all| - 1];
      UnexpiredUnits(front, now);
      UnitsSinceMore(front, last, now - 300);
      assert all == front + [last];
      assert (Unexpired(front, now) + [last])[..|Unexpired(front, now)|] == Unexpired(front, now);
    }
  }

  /** `ProductService.reserveStock`: admitted if what is left of 1.2 times the stock covers the
      quantity. With a clock that never goes back, the units admitted in the 300 seconds up to
      an admission never exceed six fifths of the stock, itself included. */
  method Reserve(store: ReservationStore, stock: nat, userId: nat, quantity: nat, now: int, later: int,
                 reservationId: nat)
    returns (admitted: bool)
    requires store.Valid() && !Knows(Admissions(store.log), reservationId) && now <= later
    modifies store
    ensures store.Valid()
    ensures store.log == old(store.log) + [Prune(now)]
                         + (if admitted then [Admit(Admission(userId, reservationId, quantity, later))] else [])
    ensures admitted <==> 5 * (Units(Live(old(store.log) + [Prune(now)])) + quantity) <= 6 * stock
    ensures Forward(old(store.log) + [Prune(now)]) ==>
              && (admitted <==> 5 * (UnitsSince(Admissions(old(store.log)), now - 300) + quantity) <= 6 * stock)
              && (admitted ==> 5 * UnitsSince(Admissions(store.log), later - 300) <= 6 * stock)
  {
    var reserved := store.CountReservedStock(now);
    ghost var counted := store.log;
    assert Admissions(counted) == Admissions(old(store.log)) by { assert counted[..|counted| - 1] == old(store.log); }
    UnexpiredUnits(Admissions(counted), now);
    CapacityIs(stock, reserved + quantity);
    if Capacity(stock) - reserved >= quantity {
      store.ReserveStock(userId, quantity, later, reservationId);
      admitted := true;
      WindowGrows(old(store.log), counted, store.log, Admission(userId, reservationId, quantity, later), now);
      UnexpiredUnits(Admissions(store.log), later);
    } else {
      admitted := false;
    }
  }

  /** An admission adds its own units to what was unexpired when it counted. */
  lemma WindowGrows(log: seq<Event>, counted: seq<Event>, after: seq<Event>, a: Admission, now: int)
    requires Admissions(counted) == Admissions(log) && after == counted + [Admit(a)] && now <= a.at
    ensures Units(Unexpired(Admissions(after), a.at)) <= Units(Unexpired(Admissions(log), now)) + a.units
  {
    assert after[..|after| - 1] == counted;
    var all := Admissions(log);
    assert (all + [a])[..|all|] == all;
    UnitsFall(all, now, a.at);
    assert (Unexpired(all, a.at) + [a])[..|Unexpired(all, a.at)|] == Unexpired(all, a.at);
  }

  /** An admission is live exactly if no prune since it was made came at its expiry or later. */
  lemma {:induction false} LiveExactly(log: seq<Event>, i: nat)
    requires i < |log| && log[i].Admit? && FreshIds(Admissions(log))
    ensures log[i].admission in Live(log) <==>
            forall j | i < j < |log| && log[j].Prune? :: log[j].now < log[i].admission.at + 300
  {
    var front := log[..|log| - 1];
    if i == |log| - 1 {
      assert Live(log)[|Live(front)|] == log[i].admission;
    } else {
      FrontFresh(log);
      LiveExactly(front, i);
      assert forall j | i < j < |front| :: log[j] == front[j];
      match log[|log| - 1]
      case Admit(b) => AdmittedBefore(log, i);
      case Prune(now) => UnexpiredExactly(Live(front), now, log[i].admission);
    }
  }

  lemma FrontFresh(log: seq<Event>)
    requires log != [] && FreshIds(Admissions(log))
    ensures FreshIds(Admissions(log[..|log| - 1]))
  {
    if log[|log| - 1].Admit? { FreshFront(Admissions(log[..|log| - 1]), log[|log| - 1].admission); }
  }

  lemma {:induction false} Listed(log: seq<Event>, i: nat)
    requires i < |log| && log[i].Admit?
    ensures log[i].admission in Admissions(log)
  {
    var front := log[..|log| - 1];
    if i < |front| {
      Listed(front, i);
      assert front[i] == log[i];
    }
  }

  /** A later admission is another one. */
  lemma AdmittedBefore(log: seq<Event>, i: nat)
    requires i < |log| - 1 && log[i].Admit? && log[|log| - 1].Admit? && FreshIds(Admissions(log))
    ensures log[i].admission != log[|log| - 1].admission
  {
    var front := log[..|log| - 1];
    assert front[i] == log[i];
    Listed(front, i);
    FreshFront(Admissions(front), log[|log| - 1].admission);
  }

  lemma {:induction false} UnexpiredExactly(all: seq<Admission>, now: int, a: Admission)
    ensures a in Unexpired(all, now) <==> a in all && a.at + TTL > now
  {
    if all != [] {
      UnexpiredExactly(all[..|all| - 1], now, a);
      assert all == all[..|all| - 1] + [all[|all| - 1]];
    }
  }
}
