/** The advisory locks the transactions take, and why no transactions ever wait for each other in a circle. */
module Locks {
  import opened Domain

  type Tid = nat

  /** The texts that are hashed into lock keys. */
  datatype Key =
    | ActorKey(user: Id)
    | PairKey(one: Id, other: Id)
    | RateKey(user: Id)
    | MessageKey(user: Id, message: string)
    | ReviewKey(user: Id, review: string)
    | BookingKey(booking: Id)
    | ItemKey(item: Id)

  /** The transactions, by the locks they take. */
  datatype Request =
    | CreateBooking(borrower: Id, item: Id)
    | ConfirmBooking(booking: Id, item: Id)
    | OnBooking(booking: Id)
    | EditCalendar(item: Id)
    | BlockUser(one: Id, other: Id, candidates: seq<Id>)
    | SendMessage(author: Id, message: string, booking: Id)
    | WriteReview(author: Id, review: string, booking: Id)

  /** The candidates of `blockUser` come from a query ordered by the unique booking id. */
  predicate Sorted(ids: seq<Id>) {
    forall i, j | 0 <= i < j < |ids| :: ids[i] < ids[j]
  }

  predicate Allowed(r: Request) {
    r.BlockUser? ==> Sorted(r.candidates)
  }

  function Bookings(ids: seq<Id>): (keys: seq<Key>) {
    seq(|ids|, i requires 0 <= i < |ids| => BookingKey(ids[i]))
  }

  /** The locks of a transaction in the order it takes them; all are held until it ends. */
  function Plan(r: Request): seq<Key> {
    match r
    case CreateBooking(borrower, item) => [ActorKey(borrower), ItemKey(item)]
    case ConfirmBooking(booking, item) => [BookingKey(booking), ItemKey(item)]
    case OnBooking(booking) => [BookingKey(booking)]
    case EditCalendar(item) => [ItemKey(item)]
    case BlockUser(one, other, candidates) => [PairKey(one, other)] + Bookings(candidates)
    case SendMessage(author, message, booking) => [RateKey(author), MessageKey(author, message), BookingKey(booking)]
    case WriteReview(author, review, booking) => [ReviewKey(author, review), BookingKey(booking)]
  }

  /** The order every plan follows: actor, pair and command keys, then bookings by id, then the item. */
  predicate Before(k: Key, l: Key) {
    if Tier(k) != Tier(l) then Tier(k) < Tier(l)
    else k.BookingKey? && l.BookingKey? && k.booking < l.booking
  }

  function Tier(k: Key): nat {
    match k
    case ActorKey(_) => 0
    case PairKey(_, _) => 0
    case RateKey(_) => 0
    case ReviewKey(_, _) => 0
    case MessageKey(_, _) => 1
    case BookingKey(_) => 2
    case ItemKey(_) => 3
  }

  /** A running transaction and how many of its locks it has. */
  datatype Running = Running(request: Request, taken: nat)

  type Hash = Key -> int

  /** Transactions by id. A lock is the hash of its key, so two keys may share one. */
  type Threads = map<Tid, Running>

  predicate Held(hash: Hash, r: Running, lock: int) {
    exists i | 0 <= i < r.taken && i < |Plan(r.request)| :: hash(Plan(r.request)[i]) == lock
  }

  predicate Wants(r: Running) {
    r.taken < |Plan(r.request)|
  }

  function NextKey(r: Running): Key
    requires Wants(r)
  {
    Plan(r.request)[r.taken]
  }

  /** Transaction `t` is blocked by transaction `u`. A lock is reentrant: nobody blocks himself. */
  predicate WaitsFor(hash: Hash, s: Threads, t: Tid, u: Tid) {
    t in s && u in s && t != u && Wants(s[t]) && Held(hash, s[u], hash(NextKey(s[t])))
  }

  predicate Blocked(hash: Hash, s: Threads, t: Tid) {
    exists u | u in s :: WaitsFor(hash, s, t, u)
  }

  datatype Event = Begin(t: Tid, r: Request) | Take(t: Tid) | End(t: Tid)

  predicate Enabled(hash: Hash, s: Threads, e: Event) {
    match e
    case Begin(t, r) => t !in s && Allowed(r)
    case Take(t) => t in s && Wants(s[t]) && !Blocked(hash, s, t)
    case End(t) => t in s
  }

  function Step(hash: Hash, s: Threads, e: Event): Threads {
    if !Enabled(hash, s, e) then s
    else
      match e
      case Begin(t, r) => s[t := Running(r, 0)]
      case Take(t) => s[t := Running(s[t].request, s[t].taken + 1)]
      case End(t) => s - {t}
  }

  function Run(hash: Hash, s: Threads, es: seq<Event>): Threads
    decreases |es|
  {
    if es == [] then s else Run(hash, Step(hash, s, es[0]), es[1..])
  }

  // ---------------------------------------------------------------- what every state keeps

  /** Every transaction follows its plan, and no lock is held twice. */
  ghost predicate Ok(hash: Hash, s: Threads) {
    && (forall t | t in s :: Allowed(s[t].request) && s[t].taken <= |Plan(s[t].request)|)
    && (forall t, u, lock | t in s && u in s && Held(hash, s[t], lock) && Held(hash, s[u], lock) :: t == u)
  }

  lemma StepKeeps(hash: Hash, s: Threads, e: Event)
    requires Ok(hash, s)
    ensures Ok(hash, Step(hash, s, e))
  {
    hide Plan;
    if Enabled(hash, s, e) && e.Take? {
      var now := Step(hash, s, e)[e.t];
      forall lock | Held(hash, now, lock) ensures Held(hash, s[e.t], lock) || lock == hash(NextKey(s[e.t])) {
        var i :| 0 <= i < now.taken && i < |Plan(now.request)| && hash(Plan(now.request)[i]) == lock;
        if i < s[e.t].taken { assert hash(Plan(s[e.t].request)[i]) == lock; }
      }
      forall u | u in s && u != e.t ensures !Held(hash, s[u], hash(NextKey(s[e.t]))) {
        assert !WaitsFor(hash, s, e.t, u);
      }
    }
  }

  lemma {:induction false} RunKeeps(hash: Hash, s: Threads, es: seq<Event>)
    requires Ok(hash, s)
    ensures Ok(hash, Run(hash, s, es))
    decreases |es|
  {
    if es != [] {
      StepKeeps(hash, s, es[0]);
      RunKeeps(hash, Step(hash, s, es[0]), es[1..]);
    }
  }

  /** One lock has one holder, in every run and under every hash. */
  lemma MutualExclusion(hash: Hash, es: seq<Event>, t: Tid, u: Tid, lock: int)
    requires var s := Run(hash, map[], es); t in s && u in s && Held(hash, s[t], lock) && Held(hash, s[u], lock)
    ensures t == u
  {
    hide Held, Plan;
    RunKeeps(hash, map[], es);
  }

  // ---------------------------------------------------------------- no circle

  lemma PlansAscend(r: Request, i: nat, j: nat)
    requires Allowed(r) && i < j < |Plan(r)|
    ensures Before(Plan(r)[i], Plan(r)[j])
  {
  }

  type Order = (int, int) -> bool

  ghost predicate IsOrder(below: Order) {
    && (forall x :: !below(x, x))
    && (forall x, y, z :: below(x, y) && below(y, z) ==> below(x, z))
  }

  lemma Ascends(below: Order, x: int, y: int, z: int)
    requires IsOrder(below) && below(x, y) && below(y, z)
    ensures below(x, z) && z != x
  {
  }

  /** Along every plan the locks ascend; a plan may come to a lock it has already. */
  ghost predicate Ascending(hash: Hash, below: Order) {
    forall r, i, j | Allowed(r) && 0 <= i < j < |Plan(r)| ::
      hash(Plan(r)[i]) == hash(Plan(r)[j]) || below(hash(Plan(r)[i]), hash(Plan(r)[j]))
  }

  /** What a waiting transaction wants is below what its holder, which waits as well, wants. */
  lemma WaitsAscend(hash: Hash, below: Order, s: Threads, t: Tid, u: Tid, v: Tid)
    requires Ok(hash, s) && Ascending(hash, below) && WaitsFor(hash, s, t, u) && WaitsFor(hash, s, u, v)
    ensures below(hash(NextKey(s[t])), hash(NextKey(s[u])))
  {
    hide Plan;
    var r := s[u];
    var i :| 0 <= i < r.taken && i < |Plan(r.request)| && hash(Plan(r.request)[i]) == hash(NextKey(s[t]));
    assert Held(hash, r, hash(Plan(r.request)[i])) && Held(hash, s[v], hash(NextKey(r)));
    assert hash(Plan(r.request)[i]) == hash(Plan(r.request)[r.taken]) || below(hash(NextKey(s[t])), hash(NextKey(r)));
  }

  /** Each of the transactions waits for the one after it. */
  predicate Chain(hash: Hash, s: Threads, ts: seq<Tid>) {
    forall i | 0 <= i < |ts| - 1 :: WaitsFor(hash, s, ts[i], ts[i + 1])
  }

  lemma {:induction false} ChainAscends(hash: Hash, below: Order, s: Threads, ts: seq<Tid>, n: nat)
    requires Ok(hash, s) && IsOrder(below) && Ascending(hash, below) && Chain(hash, s, ts) && 0 < n < |ts| - 1
    ensures ts[0] in s && Wants(s[ts[0]]) && ts[n] in s && Wants(s[ts[n]])
    ensures below(hash(NextKey(s[ts[0]])), hash(NextKey(s[ts[n]])))
  {
    hide Held, Plan, Ascending;
    assert WaitsFor(hash, s, ts[n - 1], ts[n]) && WaitsFor(hash, s, ts[n], ts[n + 1]);
    WaitsAscend(hash, below, s, ts[n - 1], ts[n], ts[n + 1]);
    if n > 1 {
      ChainAscends(hash, below, s, ts, n - 1);
      Ascends(below, hash(NextKey(s[ts[0]])), hash(NextKey(s[ts[n - 1]])), hash(NextKey(s[ts[n]])));
    }
  }

  /**
   * Under every hash for which some order ascends along every plan, no state of any run has a circle of
   * waiting transactions.
   */
  lemma NoDeadlock(hash: Hash, below: Order, es: seq<Event>, ts: seq<Tid>)
    requires IsOrder(below) && Ascending(hash, below) && |ts| > 1 && ts[0] == ts[|ts| - 1]
    ensures !Chain(hash, Run(hash, map[], es), ts)
  {
    hide Plan, Held, Ascending;
    var s := Run(hash, map[], es);
    RunKeeps(hash, map[], es);
    if Chain(hash, s, ts) {
      assert WaitsFor(hash, s, ts[0], ts[1]);
      var n := |ts| - 2;
      assert WaitsFor(hash, s, ts[n], ts[n + 1]);
      if n > 0 {
        WaitsAscend(hash, below, s, ts[n], ts[0], ts[1]);
        ChainAscends(hash, below, s, ts, n);
      }
    }
  }

  /** Two keys share a lock only if neither is a booking's and no plan takes one before the other. */
  ghost predicate Harmless(hash: Hash) {
    forall k, l :: hash(k) == hash(l) ==> k == l || (Tier(k) == Tier(l) && !k.BookingKey?)
  }

  /** The order of the keys, carried over to their locks. */
  ghost function LockOrder(hash: Hash): Order {
    (x, y) => exists k, l :: hash(k) == x && hash(l) == y && Before(k, l)
  }

  lemma Through(hash: Hash, k: Key, l: Key, l': Key, n: Key)
    requires Harmless(hash) && hash(l) == hash(l') && Before(k, l) && Before(l', n)
    ensures Before(k, n)
  {
    assert l == l' || (Tier(l) == Tier(l') && !l.BookingKey? && !l'.BookingKey?) by { assert hash(l') == hash(l); }
    assert Before(k, n);
  }

  lemma Apart(hash: Hash, k: Key, l: Key)
    requires Harmless(hash) && Before(k, l)
    ensures hash(k) != hash(l)
  {
  }

  lemma HarmlessAscends(hash: Hash)
    requires Harmless(hash)
    ensures IsOrder(LockOrder(hash)) && Ascending(hash, LockOrder(hash))
  {
    var below := LockOrder(hash);
    hide Before, Plan, Harmless;
    forall k, l | Before(k, l) ensures hash(k) != hash(l) { Apart(hash, k, l); }
    assert forall x :: !below(x, x);
    forall x, y, z | below(x, y) && below(y, z) ensures below(x, z) {
      var k, l :| hash(k) == x && hash(l) == y && Before(k, l);
      var l', n :| hash(l') == y && hash(n) == z && Before(l', n);
      Through(hash, k, l, l', n);
    }
    forall r, i, j | Allowed(r) && 0 <= i < j < |Plan(r)| ensures below(hash(Plan(r)[i]), hash(Plan(r)[j])) {
      PlansAscend(r, i, j);
    }
  }

  /** So collisions of items with items, or of actors' keys with each other, do no harm. */
  lemma NoDeadlockWhenHarmless(hash: Hash, es: seq<Event>, ts: seq<Tid>)
    requires Harmless(hash) && |ts| > 1 && ts[0] == ts[|ts| - 1]
    ensures !Chain(hash, Run(hash, map[], es), ts)
  {
    hide Chain, Run, LockOrder, Harmless, Ascending, IsOrder;
    HarmlessAscends(hash);
    NoDeadlock(hash, LockOrder(hash), es, ts);
  }

  ghost predicate Injective(hash: Hash) {
    forall k, l :: hash(k) == hash(l) ==> k == l
  }

  /** Keys that do not collide at all are a special case. */
  lemma NoDeadlockWithoutCollisions(hash: Hash, es: seq<Event>, ts: seq<Tid>)
    requires Injective(hash) && |ts| > 1 && ts[0] == ts[|ts| - 1]
    ensures !Chain(hash, Run(hash, map[], es), ts)
  {
    assert Harmless(hash);
    NoDeadlockWhenHarmless(hash, es, ts);
  }

  /** Following the holders of the wanted locks from a waiting transaction ends at one that can go on. */
  lemma {:induction false} SomeoneMoves(hash: Hash, below: Order, s: Threads, t: Tid, left: set<Tid>) returns (u: Tid)
    requires Ok(hash, s) && IsOrder(below) && Ascending(hash, below) && t in left && left <= s.Keys
    requires forall x | x in s && x !in left ::
               Wants(s[x]) && Wants(s[t]) && below(hash(NextKey(s[x])), hash(NextKey(s[t])))
    ensures u in s && (!Wants(s[u]) || !Blocked(hash, s, u))
    decreases |left|
  {
    hide Plan, Held, Ascending, IsOrder;
    u := t;
    if Wants(s[t]) && Blocked(hash, s, t) {
      var next :| next in s && WaitsFor(hash, s, t, next);
      if Wants(s[next]) && Blocked(hash, s, next) {
        var third :| third in s && WaitsFor(hash, s, next, third);
        WaitsAscend(hash, below, s, t, next, third);
        forall x | x in s && x !in left ensures below(hash(NextKey(s[x])), hash(NextKey(s[next]))) && x != next {
          Ascends(below, hash(NextKey(s[x])), hash(NextKey(s[t])), hash(NextKey(s[next])));
        }
        u := SomeoneMoves(hash, below, s, next, left - {t});
      } else {
        u := next;
      }
    }
  }

  /** While any transaction runs, one of them has all its locks or can take its next one. */
  lemma Progress(hash: Hash, below: Order, es: seq<Event>) returns (u: Tid)
    requires IsOrder(below) && Ascending(hash, below) && Run(hash, map[], es) != map[]
    ensures var s := Run(hash, map[], es); u in s && (!Wants(s[u]) || Enabled(hash, s, Take(u)))
  {
    hide Plan, Held, Ascending, IsOrder;
    var s := Run(hash, map[], es);
    RunKeeps(hash, map[], es);
    assert s.Keys != {};
    var t :| t in s;
    u := SomeoneMoves(hash, below, s, t, s.Keys);
  }

  /**
   * Without that assumption it fails: when the hash of one booking meets the hash of the other one's
   * item, both ways, two confirmations stop each other for good.
   */
  lemma CollidingDeadlock(hash: Hash, b: Id, c: Id, item: Id, other: Id)
    requires hash(BookingKey(b)) == hash(ItemKey(other)) && hash(BookingKey(c)) == hash(ItemKey(item))
    requires hash(BookingKey(b)) != hash(BookingKey(c))
    ensures var es := [Begin(1, ConfirmBooking(b, item)), Begin(2, ConfirmBooking(c, other)), Take(1), Take(2)];
            Chain(hash, Run(hash, map[], es), [1, 2, 1])
  {
    var s0: Threads := map[];
    var es := [Begin(1, ConfirmBooking(b, item)), Begin(2, ConfirmBooking(c, other)), Take(1), Take(2)];
    var s1 := Step(hash, s0, es[0]);
    var s2 := Step(hash, s1, es[1]);
    assert !Held(hash, s2[2], hash(BookingKey(b)));
    var s3 := Step(hash, s2, es[2]);
    assert s3[1].taken == 1;
    assert !Held(hash, s3[1], hash(BookingKey(c)));
    var s4 := Step(hash, s3, es[3]);
    assert s4[1] == Running(ConfirmBooking(b, item), 1) && s4[2] == Running(ConfirmBooking(c, other), 1);
    assert Held(hash, s4[1], hash(Plan(s4[1].request)[0])) && Held(hash, s4[2], hash(Plan(s4[2].request)[0]));
    assert es[1..] == [es[1], es[2], es[3]] && es[1..][1..] == [es[2], es[3]] && es[1..][1..][1..] == [es[3]];
    assert Run(hash, s4, []) == s4;
    assert Run(hash, s3, [es[3]]) == s4;
    assert Run(hash, s2, [es[2], es[3]]) == s4;
    assert Run(hash, s1, [es[1], es[2], es[3]]) == s4;
  }
}
