/** Admissions that overlap. Counting the reserved units and inserting the new ones are
    separate commands, so between the two others may be admitted on the same count. */
module Overshoot {
  import opened Reservation

  /** An admission past its check that has not inserted all of its units. `next` is the
      `seq` it inserts next. */
  datatype Flight = Flight(userId: nat, reservationId: nat, quantity: nat, next: nat, score: int)

  datatype OState = OState(members: SortedSet, flights: seq<Flight>)

  datatype OStep =
    | Expire(now: int)
    | Check(userId: nat, reservationId: nat, quantity: nat, score: int)
    | Zadd(i: nat)
    | Drop(i: nat)

  /** A product with its stock, the admissions that may overlap, and the most units one may ask. */
  datatype Limits = Limits(stock: nat, k: nat, most: nat)

  predicate OEnabled(l: Limits, s: OState, step: OStep) {
    match step
    case Expire(_) => true
    case Check(_, _, quantity, _) => |s.flights| < l.k && 1 <= quantity <= l.most
    case Zadd(i) => i < |s.flights|
    case Drop(i) => i < |s.flights|
  }

  function Without(flights: seq<Flight>, i: nat): seq<Flight>
    requires i < |flights|
  {
    flights[..i] + flights[i + 1..]
  }

  function OApply(l: Limits, s: OState, step: OStep): OState
    requires OEnabled(l, s, step)
  {
    match step
    case Expire(now) => s.(members := Pruned(s.members, now))
    case Check(userId, id, quantity, score) =>
      if Capacity(l.stock) - |s.members| >= quantity
      then s.(flights := s.flights + [Flight(userId, id, quantity, 1, score)])
      else s
    case Zadd(i) =>
      var f := s.flights[i];
      OState(s.members[Member(f.userId, f.reservationId, f.next) := f.score],
             if f.next < f.quantity then s.flights[i := f.(next := f.next + 1)] else Without(s.flights, i))
    case Drop(i) => s.(flights := Without(s.flights, i))
  }

  predicate OLegal(l: Limits, s: OState, steps: seq<OStep>)
    decreases |steps|
  {
    steps == [] || (OEnabled(l, s, steps[0]) && OLegal(l, OApply(l, s, steps[0]), steps[1..]))
  }

  function OExec(l: Limits, s: OState, steps: seq<OStep>): OState
    requires OLegal(l, s, steps)
    decreases |steps|
  {
    if steps == [] then s else OExec(l, OApply(l, s, steps[0]), steps[1..])
  }

  /** Units approved and not inserted yet. */
  function Pending(flights: seq<Flight>): int {
    if flights == [] then 0 else Pending(flights[1..]) + flights[0].quantity - flights[0].next + 1
  }

  predicate Flying(l: Limits, flights: seq<Flight>) {
    && |flights| <= l.k
    && forall i | 0 <= i < |flights| :: 1 <= flights[i].next <= flights[i].quantity <= l.most
  }

  predicate OInitial(l: Limits, s: OState) {
    s.flights == [] && 5 * |s.members| <= 6 * l.stock && l.k >= 1
  }

  lemma {:induction false} PendingMore(flights: seq<Flight>, f: Flight)
    ensures Pending(flights + [f]) == Pending(flights) + f.quantity - f.next + 1
  {
    if flights == [] {
      assert (flights + [f])[1..] == [];
    } else {
      assert (flights + [f])[1..] == flights[1..] + [f];
      PendingMore(flights[1..], f);
    }
  }

  lemma {:induction false} PendingWithout(flights: seq<Flight>, i: nat)
    requires i < |flights|
    ensures Pending(Without(flights, i)) == Pending(flights) - (flights[i].quantity - flights[i].next + 1)
  {
    if i == 0 {
      assert Without(flights, 0) == flights[1..];
    } else {
      assert Without(flights, i)[1..] == Without(flights[1..], i - 1);
      PendingWithout(flights[1..], i - 1);
    }
  }

  lemma {:induction false} PendingNext(flights: seq<Flight>, i: nat, f: Flight)
    requires i < |flights| && f == flights[i].(next := flights[i].next + 1)
    ensures Pending(flights[i := f]) == Pending(flights) - 1
  {
    if i == 0 {
      assert flights[i := f][1..] == flights[1..];
    } else {
      assert flights[i := f][1..] == flights[1..][i - 1 := f];
      PendingNext(flights[1..], i - 1, f);
    }
  }

  lemma {:induction false} PendingAtMost(l: Limits, flights: seq<Flight>)
    requires Flying(l, flights)
    ensures 0 <= Pending(flights) <= |flights| * l.most
  {
    if flights != [] {
      PendingAtMost(l, flights[1..]);
      assert |flights| * l.most == (|flights| - 1) * l.most + l.most;
    }
  }

  lemma FewerTimes(a: nat, b: nat, q: nat)
    requires a <= b
    ensures a * q <= b * q
  {
  }

  /** Before one more check, the others hold at most `k - 1` requests. */
  lemma OthersPending(l: Limits, flights: seq<Flight>)
    requires Flying(l, flights) && |flights| < l.k
    ensures Pending(flights) <= (l.k - 1) * l.most
  {
    PendingAtMost(l, flights);
    FewerTimes(|flights|, l.k - 1, l.most);
  }

  /** 1.2 times the stock, and what all but one of the overlapping requests may ask. */
  function Ceiling(l: Limits): int {
    Capacity(l.stock) + (l.k - 1) * l.most
  }

  ghost predicate Bounded(l: Limits, s: OState) {
    Flying(l, s.flights) && |s.members| + Pending(s.flights) <= Ceiling(l)
  }

  lemma PrunedIsFewer(z: SortedSet, now: int)
    ensures |Pruned(z, now)| <= |z|
  {
    assert Pruned(z, now).Keys <= z.Keys;
    Subset(Pruned(z, now).Keys, z.Keys);
    assert |Pruned(z, now)| == |Pruned(z, now).Keys| && |z| == |z.Keys|;
  }

  lemma {:induction false} Subset(a: set<Member>, b: set<Member>)
    requires a <= b
    ensures |a| <= |b|
    decreases |b|
  {
    if m :| m in a { Subset(a - {m}, b - {m}); }
  }

  lemma Inserts(z: SortedSet, m: Member, score: int)
    ensures |z[m := score]| <= |z| + 1
  {
    assert z[m := score].Keys == z.Keys + {m};
    assert |z[m := score]| == |z[m := score].Keys| && |z| == |z.Keys|;
  }

  lemma CheckBounded(l: Limits, s: OState, f: Flight)
    requires Bounded(l, s) && |s.flights| < l.k && 1 == f.next <= f.quantity <= l.most
    requires Capacity(l.stock) - |s.members| >= f.quantity
    ensures Bounded(l, s.(flights := s.flights + [f]))
  {
    PendingMore(s.flights, f);
    OthersPending(l, s.flights);
  }

  lemma ZaddBounded(l: Limits, s: OState, i: nat)
    requires Bounded(l, s) && i < |s.flights|
    ensures Bounded(l, OApply(l, s, Zadd(i)))
  {
    var f := s.flights[i];
    Inserts(s.members, Member(f.userId, f.reservationId, f.next), f.score);
    if f.next < f.quantity {
      PendingNext(s.flights, i, f.(next := f.next + 1));
    } else {
      PendingWithout(s.flights, i);
    }
  }

  lemma DropBounded(l: Limits, s: OState, i: nat)
    requires Bounded(l, s) && i < |s.flights|
    ensures Bounded(l, OApply(l, s, Drop(i)))
  {
    PendingWithout(s.flights, i);
  }

  /** Every command keeps the bound. */
  lemma StepBounded(l: Limits, s: OState, step: OStep)
    requires Bounded(l, s) && OEnabled(l, s, step)
    ensures Bounded(l, OApply(l, s, step))
  {
    match step
    case Expire(now) => PrunedIsFewer(s.members, now);
    case Check(userId, id, quantity, score) =>
      if Capacity(l.stock) - |s.members| >= quantity { CheckBounded(l, s, Flight(userId, id, quantity, 1, score)); }
    case Zadd(i) => ZaddBounded(l, s, i);
    case Drop(i) => DropBounded(l, s, i);
  }

  /** Over any run of interleaved admissions, prunes, crashes and insertions, the units in the
      set and those approved for it exceed 1.2 times the stock by at most what all admissions
      in flight but one may ask. */
  lemma OvershootIsBounded(l: Limits, s: OState, steps: seq<OStep>)
    requires OInitial(l, s) && OLegal(l, s, steps)
    ensures var e := OExec(l, s, steps);
            5 * (|e.members| + Pending(e.flights)) <= 6 * l.stock + 5 * ((l.k - 1) * l.most)
  {
    FewerTimes(0, l.k - 1, l.most);
    CapacityIs(l.stock, |s.members|);
    RunBounded(l, s, steps);
    CapacityIs(l.stock, Capacity(l.stock));
  }

  lemma {:induction false} RunBounded(l: Limits, s: OState, steps: seq<OStep>)
    requires Bounded(l, s) && OLegal(l, s, steps)
    ensures Bounded(l, OExec(l, s, steps))
    decreases |steps|
  {
    if steps != [] {
      StepBounded(l, s, steps[0]);
      RunBounded(l, OApply(l, s, steps[0]), steps[1..]);
    }
  }

  /** `n` checks of `quantity` units each, with no insertion between them. */
  function Checks(n: nat, quantity: nat, score: int): seq<OStep> {
    seq(n, i requires 0 <= i < n => Check(0, i + 1, quantity, score))
  }

  lemma {:induction false} ChecksAllPass(l: Limits, s: OState, steps: seq<OStep>, quantity: nat)
    requires forall i | 0 <= i < |steps| :: steps[i].Check? && steps[i].quantity == quantity
    requires 1 <= quantity <= l.most && |s.members| + quantity <= Capacity(l.stock)
    requires |s.flights| + |steps| <= l.k
    ensures OLegal(l, s, steps)
    ensures var e := OExec(l, s, steps);
            e.members == s.members && Pending(e.flights) == Pending(s.flights) + |steps| * quantity
    decreases |steps|
  {
    if steps != [] {
      var c := steps[0];
      PendingMore(s.flights, Flight(c.userId, c.reservationId, quantity, 1, c.score));
      ChecksAllPass(l, OApply(l, s, c), steps[1..], quantity);
      assert |steps| * quantity == (|steps| - 1) * quantity + quantity;
    }
  }

  lemma OneTimesMore(k: nat, q: nat)
    requires k >= 1
    ensures k * q == (k - 1) * q + q
  {
  }

  /** A set with room for one largest request. */
  lemma RoomForOne(capacity: nat, most: nat) returns (z: SortedSet)
    requires most <= capacity
    ensures |z| + most == capacity
  {
    InsertedSize(map[], 0, 0, capacity - most, TTL);
    z := Inserted(map[], 0, 0, capacity - most, TTL);
  }

  /** The bound is reached, whatever the stock, the overlap and the largest request: all `k`
      admissions check before any of them inserts, and not one unit more would fit under it. */
  lemma OvershootIsReached(l: Limits) returns (s: OState, steps: seq<OStep>)
    requires l.k >= 1 && 1 <= l.most && 5 * l.most <= 6 * l.stock
    ensures OInitial(l, s) && OLegal(l, s, steps)
    ensures var e := OExec(l, s, steps);
            && 5 * (|e.members| + Pending(e.flights)) <= 6 * l.stock + 5 * ((l.k - 1) * l.most)
            && 5 * (|e.members| + Pending(e.flights) + 1) > 6 * l.stock + 5 * ((l.k - 1) * l.most)
  {
    CapacityIs(l.stock, l.most);
    var z := RoomForOne(Capacity(l.stock), l.most);
    s := OState(z, []);
    steps := Checks(l.k, l.most, TTL);
    CapacityIs(l.stock, |z|);
    ChecksAllPass(l, s, steps, l.most);
    OneTimesMore(l.k, l.most);
    CapacityIs(l.stock, Capacity(l.stock));
    CapacityIs(l.stock, Capacity(l.stock) + 1);
  }
}
