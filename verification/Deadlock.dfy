/** When transactions stop each other for good: which states are reached, and what two plans have to do for it. */
module Deadlock {
  import Domain
  import opened Locks

  // ---------------------------------------------------------------- reachable states

  lemma {:induction false} RunAppend(hash: Hash, s: Threads, es: seq<Event>, e: Event)
    ensures Run(hash, s, es + [e]) == Step(hash, Run(hash, s, es), e)
    decreases |es|
  {
    hide Step;
    if es == [] {
      assert [] + [e] == [e];
      assert Run(hash, Step(hash, s, e), []) == Step(hash, s, e);
    } else {
      assert (es + [e])[1..] == es[1..] + [e];
      RunAppend(hash, Step(hash, s, es[0]), es[1..], e);
    }
  }

  /** With the others where they are, transaction `t` can come to its `n`-th lock. */
  lemma {:induction false} Comes(hash: Hash, s: Threads, t: Tid, n: nat, es: seq<Event>) returns (more: seq<Event>)
    requires Ok(hash, s) && t in s && n <= s[t].taken && Run(hash, map[], es) == s - {t}
    ensures Run(hash, map[], more) == s[t := Running(s[t].request, n)]
    decreases n
  {
    hide Plan;
    if n == 0 {
      more := es + [Begin(t, s[t].request)];
      RunAppend(hash, map[], es, Begin(t, s[t].request));
      assert (s - {t})[t := Running(s[t].request, 0)] == s[t := Running(s[t].request, 0)];
    } else {
      var before := Comes(hash, s, t, n - 1, es);
      more := before + [Take(t)];
      RunAppend(hash, map[], before, Take(t));
      TakesNext(hash, s, t, n);
    }
  }

  lemma TakesNext(hash: Hash, s: Threads, t: Tid, n: nat)
    requires Ok(hash, s) && t in s && 0 < n <= s[t].taken
    ensures Step(hash, s[t := Running(s[t].request, n - 1)], Take(t)) == s[t := Running(s[t].request, n)]
  {
    hide Plan;
    var before := s[t := Running(s[t].request, n - 1)];
    var lock := hash(NextKey(before[t]));
    assert Held(hash, s[t], lock) by { assert hash(Plan(s[t].request)[n - 1]) == lock; }
    assert !Blocked(hash, before, t);
    assert before[t := Running(s[t].request, n)] == s[t := Running(s[t].request, n)];
  }

  lemma {:induction false} Comeable(hash: Hash, s: Threads) returns (es: seq<Event>)
    requires Ok(hash, s)
    ensures Run(hash, map[], es) == s
    decreases |s|
  {
    hide Held, Plan;
    if s == map[] {
      es := [];
    } else {
      assert s.Keys != {};
      var t :| t in s;
      assert (s - {t}).Keys == s.Keys - {t};
      var others := Comeable(hash, s - {t});
      es := Comes(hash, s, t, s[t].taken, others);
      assert s[t := Running(s[t].request, s[t].taken)] == s;
    }
  }

  /**
   * A state is reached by some run exactly when every transaction in it is allowed and somewhere along its
   * plan, and no two of them have taken the same lock.
   */
  lemma ReachedIff(hash: Hash, s: Threads)
    ensures (exists es :: Run(hash, map[], es) == s) <==> Ok(hash, s)
  {
    hide Ok;
    if Ok(hash, s) {
      var es := Comeable(hash, s);
    }
    forall es | Run(hash, map[], es) == s ensures Ok(hash, s) {
      NothingOk(hash);
      RunKeeps(hash, map[], es);
    }
  }

  lemma NothingOk(hash: Hash)
    ensures Ok(hash, map[])
  {
  }

  // ---------------------------------------------------------------- deadlocks

  /** Some run comes to transactions each of which waits for the next, the last one for the first. */
  ghost predicate CanDeadlock(hash: Hash) {
    exists es, ts :: Circle(hash, Run(hash, map[], es), ts)
  }

  predicate Circle(hash: Hash, s: Threads, ts: seq<Tid>) {
    |ts| > 1 && ts[0] == ts[|ts| - 1] && Chain(hash, s, ts)
  }

  /** The keys taken before any booking's or item's share a lock with no other key. */
  ghost predicate Gated(hash: Hash) {
    forall k, l :: hash(k) == hash(l) && Tier(k) <= 1 ==> k == l
  }

  /** Plan `r` takes some lock before another one, and plan `q` takes the same two the other way round. */
  predicate Opposed(hash: Hash, r: Request, i: nat, j: nat, q: Request, k: nat, l: nat)
  {
    && Allowed(r) && i < j < |Plan(r)| && Allowed(q) && k < l < |Plan(q)|
    && hash(Plan(r)[i]) == hash(Plan(q)[l]) && hash(Plan(r)[j]) == hash(Plan(q)[k])
    && hash(Plan(r)[i]) != hash(Plan(r)[j])
  }

  ghost predicate SomeOpposed(hash: Hash) {
    exists r, i: nat, j: nat, q, k: nat, l: nat :: Opposed(hash, r, i, j, q, k, l)
  }

  /** The same of keys instead of plans: the first of each pair is a booking's. */
  predicate Crossed(hash: Hash, k: Key, l: Key, k': Key, l': Key) {
    && k.BookingKey? && k'.BookingKey? && Before(k, l) && Before(k', l')
    && hash(k) == hash(l') && hash(l) == hash(k') && hash(k) != hash(l)
  }

  /** A plan that takes a booking's lock and then the other one. */
  function Taker(k: Key, l: Key, other: Domain.Id): (r: Running)
    requires k.BookingKey? && Before(k, l)
    ensures Allowed(r.request) && Wants(r) && NextKey(r) == l && r.taken > 0 && Plan(r.request)[r.taken - 1] == k
    ensures r.taken == 1 || (r.taken == 2 && Plan(r.request)[0] == PairKey(0, other))
  {
    if l.ItemKey? then Running(ConfirmBooking(k.booking, l.item), 1)
    else Running(BlockUser(0, other, [k.booking, l.booking]), 2)
  }

  lemma CrossedStop(hash: Hash, k: Key, l: Key, k': Key, l': Key)
    requires Gated(hash) && Crossed(hash, k, l, k', l')
    ensures CanDeadlock(hash)
  {
    var s: Threads := map[1 := Taker(k, l, 1), 2 := Taker(k', l', 2)];
    TakerHolds(hash, k, l, 1);
    TakerHolds(hash, k', l', 2);
    GatesApart(hash, k, k');
    hide Plan, Taker, Held;
    assert Ok(hash, s);
    assert WaitsFor(hash, s, 1, 2) && WaitsFor(hash, s, 2, 1);
    assert Circle(hash, s, [1, 2, 1]);
    var es := Comeable(hash, s);
  }

  lemma TakerHolds(hash: Hash, k: Key, l: Key, other: Domain.Id)
    requires k.BookingKey? && Before(k, l)
    ensures Held(hash, Taker(k, l, other), hash(k))
    ensures forall lock | Held(hash, Taker(k, l, other), lock) :: lock == hash(k) || lock == hash(PairKey(0, other))
  {
    var r := Taker(k, l, other);
    assert hash(Plan(r.request)[r.taken - 1]) == hash(k);
  }

  lemma GatesApart(hash: Hash, k: Key, k': Key)
    requires Gated(hash) && k.BookingKey? && k'.BookingKey?
    ensures hash(PairKey(0, 1)) != hash(PairKey(0, 2))
    ensures hash(PairKey(0, 1)) != hash(k) && hash(PairKey(0, 1)) != hash(k')
    ensures hash(PairKey(0, 2)) != hash(k) && hash(PairKey(0, 2)) != hash(k')
  {
  }

  lemma OpposedCross(hash: Hash, r: Request, i: nat, j: nat, q: Request, k: nat, l: nat)
    requires Gated(hash) && Opposed(hash, r, i, j, q, k, l)
    ensures i < j < |Plan(r)| && k < l < |Plan(q)|
    ensures Crossed(hash, Plan(r)[i], Plan(r)[j], Plan(q)[k], Plan(q)[l])
  {
    hide Plan, Gated, Before, Crossed;
    PlansAscend(r, i, j);
    PlansAscend(q, k, l);
    BothBookings(hash, Plan(r)[i], Plan(r)[j], Plan(q)[k], Plan(q)[l]);
  }

  lemma BothBookings(hash: Hash, k: Key, l: Key, k': Key, l': Key)
    requires Gated(hash) && Before(k, l) && Before(k', l')
    requires hash(k) == hash(l') && hash(l) == hash(k') && hash(k) != hash(l)
    ensures Crossed(hash, k, l, k', l')
  {
  }

  lemma CrossOpposes(hash: Hash, k: Key, l: Key, k': Key, l': Key)
    requires Crossed(hash, k, l, k', l')
    ensures SomeOpposed(hash)
  {
    var r, q := Taker(k, l, 1), Taker(k', l', 1);
    hide Plan, Taker;
    assert Opposed(hash, r.request, r.taken - 1, r.taken, q.request, q.taken - 1, q.taken);
  }

  // ---------------------------------------------------------------- the order of the locks

  /** One lock is taken before another one by some plan, in terms of keys. */
  ghost function Taking(hash: Hash): Order {
    (x, y) => x != y && exists k, l :: hash(k) == x && hash(l) == y && Before(k, l)
  }

  /** Without crossed keys two steps of the order make one. */
  lemma StepsJoin(hash: Hash, k: Key, l: Key, k': Key, l': Key)
    requires Gated(hash) && !SomeOpposed(hash)
    requires Before(k, l) && Before(k', l') && hash(l) == hash(k') && hash(k) != hash(l) && hash(k') != hash(l')
    ensures hash(k) != hash(l') && Before(k, l')
  {
    if k.BookingKey? && k'.BookingKey? {
      if Crossed(hash, k, l, k', l') { CrossOpposes(hash, k, l, k', l'); }
      if l'.BookingKey? && l'.booking <= k.booking {
        assert Crossed(hash, k, l, k', k);
        CrossOpposes(hash, k, l, k', k);
      }
    }
  }

  lemma TakingIsOrder(hash: Hash)
    requires Gated(hash) && !SomeOpposed(hash)
    ensures IsOrder(Taking(hash)) && Ascending(hash, Taking(hash))
  {
    hide Before, Plan, Gated, SomeOpposed;
    var below := Taking(hash);
    forall x, y, z | below(x, y) && below(y, z) ensures below(x, z) {
      var k, l :| hash(k) == x && hash(l) == y && Before(k, l);
      var k', l' :| hash(k') == y && hash(l') == z && Before(k', l');
      StepsJoin(hash, k, l, k', l');
    }
    forall r, i, j | Allowed(r) && 0 <= i < j < |Plan(r)|
      ensures hash(Plan(r)[i]) == hash(Plan(r)[j]) || below(hash(Plan(r)[i]), hash(Plan(r)[j]))
    {
      PlansAscend(r, i, j);
    }
  }

  // ---------------------------------------------------------------- main results

  /**
   * As long as the keys taken first share no lock, some run ends in a deadlock exactly when two allowed
   * plans take the same two locks in opposite orders.
   */
  lemma DeadlockIff(hash: Hash)
    requires Gated(hash)
    ensures CanDeadlock(hash) <==> SomeOpposed(hash)
  {
    hide Gated, Plan, Chain, Run, Taking, Opposed, Crossed, Ascending, IsOrder;
    if SomeOpposed(hash) {
      var r, i: nat, j: nat, q, k: nat, l: nat :| Opposed(hash, r, i, j, q, k, l);
      OpposedCross(hash, r, i, j, q, k, l);
      CrossedStop(hash, Plan(r)[i], Plan(r)[j], Plan(q)[k], Plan(q)[l]);
    } else {
      TakingIsOrder(hash);
      forall es, ts ensures !Circle(hash, Run(hash, map[], es), ts) {
        if |ts| > 1 && ts[0] == ts[|ts| - 1] { NoDeadlock(hash, Taking(hash), es, ts); }
      }
    }
  }

  /**
   * Under any hash whatever, some run ends in a deadlock exactly when transactions can be put somewhere along
   * their plans, with no lock taken twice, such that they wait in a circle.
   */
  lemma DeadlockStands(hash: Hash)
    ensures CanDeadlock(hash) <==> exists s, ts :: Ok(hash, s) && Circle(hash, s, ts)
  {
    hide Ok, Circle, Run;
    forall es, ts | Circle(hash, Run(hash, map[], es), ts)
      ensures exists s, ts :: Ok(hash, s) && Circle(hash, s, ts)
    {
      var s := Run(hash, map[], es);
      assert Run(hash, map[], es) == s;
      ReachedIff(hash, s);
      assert Ok(hash, s) && Circle(hash, s, ts);
    }
    forall s, ts | Ok(hash, s) && Circle(hash, s, ts) ensures CanDeadlock(hash) {
      var es := Comeable(hash, s);
    }
  }

  /**
   * One collision is enough: the lock of a booking is also that of the item of a later one. A block of the
   * two bookings' users and the later one's confirmation stop each other.
   */
  lemma OneCollisionStops(hash: Hash, b: Domain.Id, c: Domain.Id, item: Domain.Id)
    requires b < c && hash(BookingKey(b)) == hash(ItemKey(item)) && hash(BookingKey(c)) != hash(BookingKey(b))
    requires hash(PairKey(0, 1)) != hash(BookingKey(b)) && hash(PairKey(0, 1)) != hash(BookingKey(c))
    ensures var es := [Begin(1, BlockUser(0, 1, [b, c])), Begin(2, ConfirmBooking(c, item)), Take(1), Take(1), Take(2)];
            Circle(hash, Run(hash, map[], es), [1, 2, 1])
  {
    var block, confirm := BlockUser(0, 1, [b, c]), ConfirmBooking(c, item);
    var es := [Begin(1, block), Begin(2, confirm), Take(1), Take(1), Take(2)];
    assert Plan(block) == [PairKey(0, 1), BookingKey(b), BookingKey(c)];
    var s2: Threads := map[1 := Running(block, 0), 2 := Running(confirm, 0)];
    var s5: Threads := map[1 := Running(block, 2), 2 := Running(confirm, 1)];
    TwoTake(hash, block, confirm, s2, s5);
    Unrolled(hash, es);
    assert Held(hash, s5[1], hash(Plan(block)[1])) && Held(hash, s5[2], hash(Plan(confirm)[0]));
  }

  lemma TwoTake(hash: Hash, block: Request, confirm: Request, s2: Threads, s5: Threads)
    requires |Plan(block)| == 3 && |Plan(confirm)| == 2 && Allowed(block) && Allowed(confirm)
    requires hash(Plan(confirm)[0]) != hash(Plan(block)[0]) && hash(Plan(confirm)[0]) != hash(Plan(block)[1])
    requires s2 == map[1 := Running(block, 0), 2 := Running(confirm, 0)]
    requires s5 == map[1 := Running(block, 2), 2 := Running(confirm, 1)]
    ensures Step(hash, Step(hash, map[], Begin(1, block)), Begin(2, confirm)) == s2
    ensures Step(hash, Step(hash, Step(hash, s2, Take(1)), Take(1)), Take(2)) == s5
  {
    hide Plan;
    var s3 := s2[1 := Running(block, 1)];
    var s4 := s2[1 := Running(block, 2)];
    assert Step(hash, s2, Take(1)) == s3;
    assert Step(hash, s3, Take(1)) == s4;
    assert !Held(hash, s4[1], hash(NextKey(s4[2])));
  }

  lemma Unrolled(hash: Hash, es: seq<Event>)
    requires |es| == 5
    ensures Run(hash, map[], es) ==
            Step(hash, Step(hash, Step(hash, Step(hash, Step(hash, map[], es[0]), es[1]), es[2]), es[3]), es[4])
  {
    hide Step;
    RunAppend(hash, map[], [], es[0]);
    RunAppend(hash, map[], [es[0]], es[1]);
    RunAppend(hash, map[], [es[0], es[1]], es[2]);
    RunAppend(hash, map[], [es[0], es[1], es[2]], es[3]);
    RunAppend(hash, map[], [es[0], es[1], es[2], es[3]], es[4]);
    assert [] + [es[0]] == [es[0]] && [es[0]] + [es[1]] == [es[0], es[1]];
    assert [es[0], es[1]] + [es[2]] == [es[0], es[1], es[2]];
    assert [es[0], es[1], es[2]] + [es[3]] == [es[0], es[1], es[2], es[3]];
    assert es == [es[0], es[1], es[2], es[3]] + [es[4]];
  }
}
