/** Each split transaction, when no other one comes between its steps, does what its service does in one piece. */
module Alone {
  import opened Domain
  import Locks
  import opened Interleaving
  import Market

  /** `t` is not running, has no lock, and nobody has the locks of these keys. */
  ghost predicate Free(hash: Locks.Hash, s: State, t: Locks.Tid, keys: seq<Locks.Key>) {
    && t !in s.threads && (forall lock | lock in s.locks :: s.locks[lock] != t)
    && forall i | 0 <= i < |keys| :: hash(keys[i]) !in s.locks
  }

  /** In the middle of `t`: nothing is written yet, and every new lock is its own. */
  ghost predicate Midway(s: State, x: State, t: Locks.Tid, thread: Thread) {
    && x.rows == s.rows && x.periods == s.periods && x.threads == s.threads[t := thread]
    && s.locks.Keys <= x.locks.Keys
    && forall lock | lock in x.locks :: if lock in s.locks then x.locks[lock] == s.locks[lock] else x.locks[lock] == t
  }

  lemma Starts(hash: Locks.Hash, s: State, t: Locks.Tid, thread: Thread, keys: seq<Locks.Key>)
    requires Free(hash, s, t, keys) && Fresh(thread)
    ensures Midway(s, Next(hash, s, Start(t, thread)), t, thread)
  {
  }

  /** Taking a free lock. */
  lemma Takes(hash: Locks.Hash, s: State, x: State, t: Locks.Tid, before: Thread, key: Locks.Key, thread: Thread)
    requires Midway(s, x, t, before) && hash(key) !in s.locks
    ensures Midway(s, Locked(hash, x, t, key, thread), t, thread)
  {
    var lock := hash(key);
    assert lock in x.locks ==> x.locks[lock] == t;
    var locks := x.locks[lock := t];
    assert Locked(hash, x, t, key, thread) == x.(locks := locks, threads := x.threads[t := thread]);
    assert x.threads[t := thread] == s.threads[t := thread];
    forall other | other in locks
      ensures if other in s.locks then locks[other] == s.locks[other] else locks[other] == t
    {
      if other != lock { assert other in x.locks && locks[other] == x.locks[other]; }
    }
  }

  lemma ReadsOn(s: State, x: State, t: Locks.Tid, before: Thread, thread: Thread)
    requires Midway(s, x, t, before)
    ensures Midway(s, To(x, t, thread), t, thread)
  {
  }

  /** Ending gives every new lock back. */
  lemma Ends(hash: Locks.Hash, s: State, x: State, t: Locks.Tid, thread: Thread, rows: map<Id, Row>,
      periods: map<Id, Market.Period>)
    requires Free(hash, s, t, []) && Midway(s, x, t, thread)
    ensures Ended(x.(rows := rows, periods := periods), t) == s.(rows := rows, periods := periods)
  {
    assert x.threads - {t} == s.threads;
    Forgets(s.(rows := rows, periods := periods), t, x.(rows := rows, periods := periods));
  }

  // ---------------------------------------------------------------- expiry

  /** One candidate of the expiry worker: a request that has run out is cancelled and logged, anything else left. */
  lemma ExpireAlone(hash: Locks.Hash, s: State, t: Locks.Tid, b: Id, now: Time)
    requires Free(hash, s, t, [Locks.BookingKey(b)])
    ensures Run(hash, s, [Start(t, Expiring(b, BEGUN, now))] + Steps(t, 2)) ==
            if b in s.rows && s.rows[b].status == Pending && s.rows[b].expiresAt <= now
            then s.(rows := s.rows[b :=
                      s.rows[b].(status := Cancelled, log := s.rows[b].log + [(Pending, Cancelled)])])
            else s
  {
    var begun := Expiring(b, BEGUN, now);
    var locked := Expiring(b, BOOKING_LOCKED, now);
    var x1 := Next(hash, s, Start(t, begun));
    Starts(hash, s, t, begun, [Locks.BookingKey(b)]);
    assert [Locks.BookingKey(b)][0] == Locks.BookingKey(b);
    Takes(hash, s, x1, t, begun, Locks.BookingKey(b), locked);
    var x2 := Next(hash, x1, Advance(t));
    Ends(hash, s, x2, t, locked, Expired(s.rows, b, now), s.periods);
    ThreeSteps(hash, s, t, begun);
  }

  lemma ThreeSteps(hash: Locks.Hash, s: State, t: Locks.Tid, thread: Thread)
    ensures Run(hash, s, [Start(t, thread)] + Steps(t, 2)) ==
            Next(hash, Next(hash, Next(hash, s, Start(t, thread)), Advance(t)), Advance(t))
  {
    hide Next;
    Begin(hash, s, t, thread, 2);
    var x := Next(hash, s, Start(t, thread));
    OneMore(hash, x, t, 1);
    OneMore(hash, Next(hash, x, Advance(t)), t, 0);
    assert Run(hash, Next(hash, Next(hash, x, Advance(t)), Advance(t)), Steps(t, 0)) ==
      Next(hash, Next(hash, x, Advance(t)), Advance(t));
  }

  lemma Begin(hash: Locks.Hash, s: State, t: Locks.Tid, thread: Thread, n: nat)
    ensures Run(hash, s, [Start(t, thread)] + Steps(t, n)) ==
            Run(hash, Next(hash, s, Start(t, thread)), Steps(t, n))
  {
    hide Next;
    assert ([Start(t, thread)] + Steps(t, n))[1..] == Steps(t, n);
  }

  // ---------------------------------------------------------------- one status change

  /** A cancellation, a signature or a completion writes its change of the status it read. */
  lemma ChangeAlone(hash: Locks.Hash, s: State, t: Locks.Tid, b: Id, to: BookingStatus, seen: BookingStatus)
    requires Free(hash, s, t, [Locks.BookingKey(b)]) && b in s.rows && MayWrite(s.rows[b].status, to)
    ensures Run(hash, s, [Start(t, Changing(b, BEGUN, seen))] + Steps(t, 2) + [Settle(t, to)]) ==
            s.(rows := s.rows[b := s.rows[b].(status := to, log := s.rows[b].log + [(s.rows[b].status, to)])])
  {
    var begun, locked := Changing(b, BEGUN, seen), Changing(b, BOOKING_LOCKED, seen);
    var found := Changing(b, FOUND, s.rows[b].status);
    var x1 := Next(hash, s, Start(t, begun));
    Starts(hash, s, t, begun, [Locks.BookingKey(b)]);
    assert [Locks.BookingKey(b)][0] == Locks.BookingKey(b);
    Takes(hash, s, x1, t, begun, Locks.BookingKey(b), locked);
    var x2 := Next(hash, x1, Advance(t));
    RunAppend(hash, s, [Start(t, begun)] + Steps(t, 2), [Settle(t, to)]);
    ThreeSteps(hash, s, t, begun);
    var x3 := Next(hash, x2, Advance(t));
    ReadsOn(s, x2, t, locked, found);
    var rows := s.rows[b := Write(s.rows[b], s.rows[b].status, to)];
    Ends(hash, s, x3, t, found, rows, s.periods);
    assert Settles(x3, Settle(t, to));
    assert Run(hash, Next(hash, x3, Settle(t, to)), []) == Next(hash, x3, Settle(t, to));
    assert Run(hash, x3, [Settle(t, to)]) == Next(hash, x3, Settle(t, to));
  }

  // ---------------------------------------------------------------- the calendar

  /** The calendar's `create` adds its period exactly where no booking and no other period is. */
  lemma CloseAlone(hash: Locks.Hash, s: State, t: Locks.Tid, period: Id, item: Id, start: int, end: int)
    requires Free(hash, s, t, [Locks.ItemKey(item)]) && period !in s.periods
    ensures Run(hash, s, [Start(t, Closing(period, item, start, end, BEGUN))] + Steps(t, 4)) ==
            if (exists b | b in s.rows :: Meets(s.rows[b], item, start, end) && Reserving(s.rows[b].status)) ||
               (exists p | p in s.periods :: s.periods[p].item == item &&
                  Market.Overlap(s.periods[p].start, s.periods[p].end, start, end))
            then s
            else s.(periods := s.periods[period := Market.Period(item, start, end)])
  {
    var begun, locked := Closing(period, item, start, end, BEGUN), Closing(period, item, start, end, ITEM_LOCKED);
    Starts(hash, s, t, begun, [Locks.ItemKey(item)]);
    var x1 := Next(hash, s, Start(t, begun));
    assert [Locks.ItemKey(item)][0] == Locks.ItemKey(item);
    Takes(hash, s, x1, t, begun, Locks.ItemKey(item), locked);
    var x2 := Next(hash, x1, Advance(t));
    Begin(hash, s, t, begun, 4);
    OneMore(hash, x1, t, 3);
    ClosesAlone(hash, s, x2, t, period, item, start, end);
  }

  lemma SameDates(s: State, x: State, item: Id, start: int, end: int)
    requires x.rows == s.rows && x.periods == s.periods
    ensures ReservedBy(x, {}, item, start, end) <==>
            exists b | b in s.rows :: Meets(s.rows[b], item, start, end) && Reserving(s.rows[b].status)
    ensures CalendarTaken(x, item, start, end) <==>
            exists p | p in s.periods :: s.periods[p].item == item &&
              Market.Overlap(s.periods[p].start, s.periods[p].end, start, end)
  {
    hide Meets, Market.Overlap;
  }

  lemma ClosesAlone(hash: Locks.Hash, s: State, x: State, t: Locks.Tid, period: Id, item: Id, start: int, end: int)
    requires Free(hash, s, t, []) && period !in s.periods
    requires Midway(s, x, t, Closing(period, item, start, end, ITEM_LOCKED))
    ensures Run(hash, x, Steps(t, 3)) ==
            if ReservedBy(x, {}, item, start, end) || CalendarTaken(x, item, start, end) then s
            else s.(periods := s.periods[period := Market.Period(item, start, end)])
    ensures ReservedBy(x, {}, item, start, end) <==>
            exists b | b in s.rows :: Meets(s.rows[b], item, start, end) && Reserving(s.rows[b].status)
    ensures CalendarTaken(x, item, start, end) <==>
            exists p | p in s.periods :: s.periods[p].item == item &&
              Market.Overlap(s.periods[p].start, s.periods[p].end, start, end)
  {
    SameDates(s, x, item, start, end);
    hide ReservedBy, CalendarTaken, Ended, Market.Overlap, Meets;
    var locked := Closing(period, item, start, end, ITEM_LOCKED);
    var unreserved := Closing(period, item, start, end, DATES_FREE);
    var picked := Closing(period, item, start, end, PICKED);
    OneMore(hash, x, t, 2);
    Ends(hash, s, x, t, locked, s.rows, s.periods);
    assert x.(rows := s.rows, periods := s.periods) == x && s.(rows := s.rows, periods := s.periods) == s;
    if ReservedBy(x, {}, item, start, end) {
      GoneStays(hash, s, t, 2);
    } else {
      var y := To(x, t, unreserved);
      ReadsOn(s, x, t, locked, unreserved);
      SameDates(s, y, item, start, end);
      OneMore(hash, y, t, 1);
      Ends(hash, s, y, t, unreserved, s.rows, s.periods);
      assert y.(rows := s.rows, periods := s.periods) == y;
      if CalendarTaken(y, item, start, end) {
        GoneStays(hash, s, t, 1);
      } else {
        var z := To(y, t, picked);
        ReadsOn(s, y, t, unreserved, picked);
        OneMore(hash, z, t, 0);
        var periods := s.periods[period := Market.Period(item, start, end)];
        Ends(hash, s, z, t, picked, s.rows, periods);
        assert z.(rows := s.rows, periods := periods) == z.(periods := periods);
        assert Run(hash, s.(periods := periods), Steps(t, 0)) == s.(periods := periods);
      }
    }
  }

  // ---------------------------------------------------------------- blocks

  function BookingKeys(candidates: seq<Id>): seq<Locks.Key> {
    seq(|candidates|, i requires 0 <= i < |candidates| => Locks.BookingKey(candidates[i]))
  }

  /** `blockUser` cancels and logs exactly those of its candidates that are still pending under their locks. */
  lemma BlockAlone(hash: Locks.Hash, s: State, t: Locks.Tid, candidates: seq<Id>)
    requires Free(hash, s, t, BookingKeys(candidates))
    ensures Run(hash, s, [Start(t, Blocking(candidates, 0, None))] + Steps(t, |candidates| + 2)) ==
            s.(rows := map b | b in s.rows ::
                 if b in candidates && s.rows[b].status == Pending
                 then s.rows[b].(status := Cancelled, log := s.rows[b].log + [(Pending, Cancelled)])
                 else s.rows[b])
  {
    hide Next;
    var begun := Blocking(candidates, 0, None);
    var x := Next(hash, s, Start(t, begun));
    Starts(hash, s, t, begun, BookingKeys(candidates));
    Begin(hash, s, t, begun, |candidates| + 2);
    BlocksFrom(hash, s, x, t, candidates, 0);
  }

  lemma {:induction false} BlocksFrom(hash: Locks.Hash, s: State, x: State, t: Locks.Tid, candidates: seq<Id>, n: nat)
    requires Free(hash, s, t, BookingKeys(candidates)) && n <= |candidates|
    requires Midway(s, x, t, Blocking(candidates, n, None))
    ensures Run(hash, x, Steps(t, |candidates| - n + 2)) ==
            s.(rows := map b | b in s.rows ::
                 if b in candidates && s.rows[b].status == Pending
                 then s.rows[b].(status := Cancelled, log := s.rows[b].log + [(Pending, Cancelled)])
                 else s.rows[b])
    decreases |candidates| - n
  {
    OneMore(hash, x, t, |candidates| - n + 1);
    var next := Next(hash, x, Advance(t));
    if n < |candidates| {
      assert BookingKeys(candidates)[n] == Locks.BookingKey(candidates[n]);
      Takes(hash, s, x, t, Blocking(candidates, n, None), Locks.BookingKey(candidates[n]),
        Blocking(candidates, n + 1, None));
      hide Next;
      BlocksFrom(hash, s, next, t, candidates, n + 1);
    } else {
      var chosen := set b | b in s.rows && b in candidates && s.rows[b].status == Pending;
      var picked := Blocking(candidates, n, Some(chosen));
      ReadsOn(s, x, t, Blocking(candidates, n, None), picked);
      Ends(hash, s, next, t, picked, Dropped(s.rows, chosen), s.periods);
      OneMore(hash, next, t, 0);
      var done := s.(rows := Dropped(s.rows, chosen));
      assert Next(hash, next, Advance(t)) == done;
      assert Run(hash, done, Steps(t, 0)) == done;
    }
  }
}
