/**
 * Transactions split at their locks, reads and commits. Reads see what is committed, writes become
 * visible at the commit, and the locks go when the transaction ends. Two keys may share a lock.
 */
module Interleaving {
  import opened Domain
  import opened Locks
  import Market

  /** The columns the dates depend on, and the history as pairs of old and new status. */
  datatype Row = Row(item: Id, start: int, end: int, expiresAt: Time, status: BookingStatus,
      log: seq<(BookingStatus, BookingStatus)>)

  datatype Thread =
    /** `confirm`, with the clock it read before its transaction began. */
    | Confirming(booking: Id, now: Time, item: Id, phase: nat, rivals: set<Id>)
    /** Cancel, act confirmation or completion of one booking: the status is read, then written. */
    | Changing(booking: Id, phase: nat, seen: BookingStatus)
    /** One candidate of the expiry worker: one conditional update. */
    | Expiring(booking: Id, phase: nat, now: Time)
    /** `blockUser` on its sorted candidates. */
    | Blocking(candidates: seq<Id>, taken: nat, chosen: Option<set<Id>>)
    /** The calendar's `create`. */
    | Closing(period: Id, item: Id, start: int, end: int, phase: nat)

  // The phases, each named by what is done. A change uses the first two and then FOUND.
  const BEGUN: nat := 0
  const BOOKING_LOCKED: nat := 1
  const FOUND: nat := 2
  const ITEM_LOCKED: nat := 3
  const STILL_PENDING: nat := 4
  const CALENDAR_FREE: nat := 5
  const DATES_FREE: nat := 6
  const PICKED: nat := 7

  datatype State = State(rows: map<Id, Row>, periods: map<Id, Market.Period>, threads: map<Tid, Thread>,
      locks: map<int, Tid>)

  datatype Action =
    | Insert(id: Id, item: Id, start: int, end: int, expiresAt: Time)
    | Reopen(period: Id)
    | Start(t: Tid, thread: Thread)
    | Advance(t: Tid)
    | Settle(t: Tid, to: BookingStatus)
    | Rollback(t: Tid)

  predicate Meets(row: Row, item: Id, start: int, end: int) {
    row.item == item && Market.Overlap(row.start, row.end, start, end)
  }

  predicate Live(row: Row, now: Time) {
    row.status == Pending && row.expiresAt > now
  }

  predicate CalendarTaken(s: State, item: Id, start: int, end: int) {
    exists p | p in s.periods :: s.periods[p].item == item &&
        Market.Overlap(s.periods[p].start, s.periods[p].end, start, end)
  }

  predicate ReservedBy(s: State, except: set<Id>, item: Id, start: int, end: int) {
    exists b | b in s.rows :: b !in except && Meets(s.rows[b], item, start, end) && Reserving(s.rows[b].status)
  }

  function Rivals(s: State, b: Id, now: Time): set<Id>
    requires b in s.rows
  {
    set x | x in s.rows && x != b && Meets(s.rows[x], s.rows[b].item, s.rows[b].start, s.rows[b].end) &&
        Live(s.rows[x], now)
  }

  /** The changes a transaction that saw a status may write; a return without deposit completes at once. */
  predicate MayWrite(seen: BookingStatus, to: BookingStatus) {
    to != Confirmed && (BookingMay(seen, to) || (seen == Active && to == Completed))
  }

  predicate Fresh(thread: Thread) {
    match thread
    case Confirming(_, _, _, phase, _) => phase == BEGUN
    case Changing(_, phase, _) => phase == BEGUN
    case Expiring(_, phase, _) => phase == BEGUN
    case Blocking(candidates, taken, chosen) => taken == 0 && chosen.None?
    case Closing(_, _, _, _, phase) => phase == BEGUN
  }

  // ---------------------------------------------------------------- steps

  function Released(locks: map<int, Tid>, t: Tid): map<int, Tid> {
    map h | h in locks && locks[h] != t :: locks[h]
  }

  /** The transaction ends, with or without a commit. */
  function Ended(s: State, t: Tid): State {
    s.(threads := s.threads - {t}, locks := Released(s.locks, t))
  }

  function To(s: State, t: Tid, thread: Thread): State {
    s.(threads := s.threads[t := thread])
  }

  /** The lock is taken and the transaction goes on, or the transaction stays where it is and waits. */
  function Locked(hash: Hash, s: State, t: Tid, key: Key, thread: Thread): State {
    if hash(key) in s.locks && s.locks[hash(key)] != t then s
    else s.(locks := s.locks[hash(key) := t], threads := s.threads[t := thread])
  }

  function Write(row: Row, seen: BookingStatus, to: BookingStatus): Row {
    row.(status := to, log := row.log + [(seen, to)])
  }

  /** The bulk update skips rows that are no longer pending; the bulk history insert skips none. */
  function Drop(row: Row): Row {
    row.(status := if row.status == Pending then Cancelled else row.status, log := row.log + [(Pending, Cancelled)])
  }

  function AdvanceConfirm(hash: Hash, s: State, t: Tid, b: Id, now: Time, item: Id, phase: nat,
      rivals: set<Id>): State {
    if phase == BEGUN then Locked(hash, s, t, BookingKey(b), Confirming(b, now, item, BOOKING_LOCKED, rivals))
    else if b !in s.rows then Ended(s, t)
    else
      var row := s.rows[b];
      if phase == BOOKING_LOCKED then To(s, t, Confirming(b, now, row.item, FOUND, rivals))
      else if phase == FOUND then Locked(hash, s, t, ItemKey(item), Confirming(b, now, item, ITEM_LOCKED, rivals))
      else if phase == ITEM_LOCKED then
        if Live(row, now) then To(s, t, Confirming(b, now, item, STILL_PENDING, rivals)) else Ended(s, t)
      else if phase == STILL_PENDING then
        if CalendarTaken(s, row.item, row.start, row.end) then Ended(s, t)
        else To(s, t, Confirming(b, now, item, CALENDAR_FREE, rivals))
      else if phase == CALENDAR_FREE then
        if ReservedBy(s, {b}, row.item, row.start, row.end) then Ended(s, t)
        else To(s, t, Confirming(b, now, item, DATES_FREE, rivals))
      else if phase == DATES_FREE then To(s, t, Confirming(b, now, item, PICKED, Rivals(s, b, now)))
      else Ended(s.(rows := Selected(s.rows, b, rivals)), t)
  }

  /** The commit of `confirm`: its own update does not look at the status again. */
  function Selected(rows: map<Id, Row>, b: Id, rivals: set<Id>): map<Id, Row> {
    map x | x in rows :: if x == b then Write(rows[x], Pending, Confirmed) else if x in rivals then Drop(rows[x])
        else rows[x]
  }

  function AdvanceChange(hash: Hash, s: State, t: Tid, b: Id, phase: nat, seen: BookingStatus): State {
    if phase == BEGUN then Locked(hash, s, t, BookingKey(b), Changing(b, BOOKING_LOCKED, seen))
    else if b !in s.rows then Ended(s, t)
    else if phase == BOOKING_LOCKED then To(s, t, Changing(b, FOUND, s.rows[b].status))
    else s
  }

  /** The update and the history row are written together, or not at all. */
  function Expired(rows: map<Id, Row>, b: Id, now: Time): map<Id, Row> {
    if b in rows && rows[b].status == Pending && rows[b].expiresAt <= now
    then rows[b := Write(rows[b], Pending, Cancelled)] else rows
  }

  function AdvanceExpiry(hash: Hash, s: State, t: Tid, b: Id, phase: nat, now: Time): State {
    if phase == BEGUN then Locked(hash, s, t, BookingKey(b), Expiring(b, BOOKING_LOCKED, now))
    else Ended(s.(rows := Expired(s.rows, b, now)), t)
  }

  function AdvanceBlock(hash: Hash, s: State, t: Tid, candidates: seq<Id>, taken: nat, chosen: Option<set<Id>>): State {
    if taken < |candidates| then Locked(hash, s, t, BookingKey(candidates[taken]),
        Blocking(candidates, taken + 1, chosen))
    else if chosen.None? then
      To(s, t, Blocking(candidates, taken, Some(set b | b in s.rows && b in candidates && s.rows[b].status == Pending)))
    else Ended(s.(rows := Dropped(s.rows, chosen.value)), t)
  }

  function Dropped(rows: map<Id, Row>, chosen: set<Id>): map<Id, Row> {
    map x | x in rows :: if x in chosen then Drop(rows[x]) else rows[x]
  }

  function AdvanceClose(hash: Hash, s: State, t: Tid, period: Id, item: Id, start: int, end: int, phase: nat): State {
    if phase == BEGUN then Locked(hash, s, t, ItemKey(item), Closing(period, item, start, end, ITEM_LOCKED))
    else if phase == ITEM_LOCKED then
      if ReservedBy(s, {}, item, start, end) then Ended(s, t)
          else To(s, t, Closing(period, item, start, end, DATES_FREE))
    else if phase == DATES_FREE then
      if CalendarTaken(s, item, start, end) then Ended(s, t) else To(s, t, Closing(period, item, start, end, PICKED))
    else if period in s.periods then Ended(s, t)
    else Ended(s.(periods := s.periods[period := Market.Period(item, start, end)]), t)
  }

  /** The row a change writes: it does not look at the status again. */
  predicate Settles(s: State, a: Action) {
    a.Settle? && a.t in s.threads && s.threads[a.t].Changing? && s.threads[a.t].phase == FOUND &&
    s.threads[a.t].booking in s.rows && MayWrite(s.threads[a.t].seen, a.to)
  }

  function Next(hash: Hash, s: State, a: Action): State {
    match a
    case Insert(id, item, start, end, expiresAt) =>
      if id in s.rows then s else s.(rows := s.rows[id := Row(item, start, end, expiresAt, Pending, [])])
    case Reopen(period) => s.(periods := s.periods - {period})
    case Start(t, thread) => if t !in s.threads && Fresh(thread) then To(s, t, thread) else s
    case Advance(t) =>
      if t !in s.threads then s
      else (match s.threads[t]
            case Confirming(b, now, item, phase, rivals) => AdvanceConfirm(hash, s, t, b, now, item, phase, rivals)
            case Changing(b, phase, seen) => AdvanceChange(hash, s, t, b, phase, seen)
            case Expiring(b, phase, now) => AdvanceExpiry(hash, s, t, b, phase, now)
            case Blocking(candidates, taken, chosen) => AdvanceBlock(hash, s, t, candidates, taken, chosen)
            case Closing(period, item, start, end, phase) => AdvanceClose(hash, s, t, period, item, start, end, phase))
    case Settle(t, to) =>
      if !Settles(s, a) then s
      else
        var c := s.threads[t];
        Ended(s.(rows := s.rows[c.booking := Write(s.rows[c.booking], c.seen, to)]), t)
    case Rollback(t) => if t in s.threads then Ended(s, t) else s
  }

  function Run(hash: Hash, s: State, actions: seq<Action>): State
    decreases |actions|
  {
    if actions == [] then s else Run(hash, Next(hash, s, actions[0]), actions[1..])
  }

  const NOTHING: State := State(map[], map[], map[], map[])

  // ---------------------------------------------------------------- what every interleaving keeps

  predicate Has(hash: Hash, s: State, t: Tid, key: Key) {
    hash(key) in s.locks && s.locks[hash(key)] == t
  }

  /** What a running transaction may rely on until it ends. */
  ghost predicate ThreadOk(hash: Hash, s: State, t: Tid, c: Thread) {
    match c
    case Confirming(b, now, item, phase, rivals) =>
      && (phase >= BOOKING_LOCKED ==> Has(hash, s, t, BookingKey(b)))
      && (phase >= FOUND ==> b in s.rows && s.rows[b].item == item)
      && (phase >= ITEM_LOCKED ==> Has(hash, s, t, ItemKey(item)))
      && (phase >= STILL_PENDING ==> s.rows[b].status == Pending)
      && (phase >= CALENDAR_FREE ==> !CalendarTaken(s, item, s.rows[b].start, s.rows[b].end))
      && (phase >= DATES_FREE ==> !ReservedBy(s, {b}, item, s.rows[b].start, s.rows[b].end))
      && (phase >= PICKED ==> b !in rivals && forall x | x in rivals :: x in s.rows && s.rows[x].item == item)
    case Changing(b, phase, seen) =>
      && (phase >= BOOKING_LOCKED ==> Has(hash, s, t, BookingKey(b)))
      && (phase >= FOUND ==>
            b in s.rows && (s.rows[b].status == seen || (seen == Pending && s.rows[b].status == Cancelled)))
    case Expiring(b, phase, now) => phase >= BOOKING_LOCKED ==> Has(hash, s, t, BookingKey(b))
    case Blocking(candidates, taken, chosen) =>
      && taken <= |candidates|
      && (forall i | 0 <= i < taken :: Has(hash, s, t, BookingKey(candidates[i])))
      && (chosen.Some? ==> taken == |candidates| && forall b | b in chosen.value :: b in candidates)
    case Closing(period, item, start, end, phase) =>
      && phase in {BEGUN, ITEM_LOCKED, DATES_FREE, PICKED}
      && (phase >= ITEM_LOCKED ==> Has(hash, s, t, ItemKey(item)))
      && (phase >= DATES_FREE ==> !ReservedBy(s, {}, item, start, end))
      && (phase >= PICKED ==> !CalendarTaken(s, item, start, end))
  }

  ghost predicate ThreadsOk(hash: Hash, s: State) {
    forall t | t in s.threads :: ThreadOk(hash, s, t, s.threads[t])
  }

  /** Reserved dates of an item are disjoint from each other and from its unavailable periods. */
  ghost predicate DatesOk(s: State) {
    && (forall a, b | a in s.rows && b in s.rows && a != b && Reserving(s.rows[a].status) &&
       Reserving(s.rows[b].status) ::
          !Meets(s.rows[a], s.rows[b].item, s.rows[b].start, s.rows[b].end))
    && (forall a, p | a in s.rows && p in s.periods && Reserving(s.rows[a].status) ::
          !Meets(s.rows[a], s.periods[p].item, s.periods[p].start, s.periods[p].end))
    && (forall p, q | p in s.periods && q in s.periods && p != q && s.periods[p].item == s.periods[q].item ::
          !Market.Overlap(s.periods[p].start, s.periods[p].end, s.periods[q].start, s.periods[q].end))
  }

  ghost predicate Ok(hash: Hash, s: State) {
    ThreadsOk(hash, s) && DatesOk(s)
  }

  // ---------------------------------------------------------------- keeping it

  /** What the other transactions see when `t` ends after a commit. */
  ghost predicate Harmless(hash: Hash, s: State, t: Tid, rows: map<Id, Row>, periods: map<Id, Market.Period>) {
    && rows.Keys == s.rows.Keys
    && (forall b | b in rows ::
       rows[b].item == s.rows[b].item && rows[b].start == s.rows[b].start &&
       rows[b].end == s.rows[b].end)
    && (forall b | b in rows && rows[b].status != s.rows[b].status ::
          Has(hash, s, t, BookingKey(b)) || (Has(hash, s, t, ItemKey(rows[b].item)) && s.rows[b].status == Pending &&
              rows[b].status == Cancelled))
    && (forall b | b in rows && Reserving(rows[b].status) &&
       !Reserving(s.rows[b].status) :: Has(hash, s, t, ItemKey(rows[b].item)))
    && (forall p | p in periods && (p !in s.periods || periods[p] != s.periods[p]) ::
       Has(hash, s, t, ItemKey(periods[p].item)))
  }

  lemma OthersKeep(hash: Hash, s: State, t: Tid, rows: map<Id, Row>, periods: map<Id, Market.Period>, u: Tid)
    requires Harmless(hash, s, t, rows, periods) && t != u && u in s.threads && ThreadOk(hash, s, u, s.threads[u])
    ensures ThreadOk(hash, Ended(s.(rows := rows, periods := periods), t), u, s.threads[u])
  {
    var next := Ended(s.(rows := rows, periods := periods), t);
    assert forall key | Has(hash, s, u, key) :: Has(hash, next, u, key);
  }

  lemma EndKeeps(hash: Hash, s: State, t: Tid, rows: map<Id, Row>, periods: map<Id, Market.Period>)
    requires Ok(hash, s) && t in s.threads && Harmless(hash, s, t, rows, periods)
    ensures ThreadsOk(hash, Ended(s.(rows := rows, periods := periods), t))
  {
    hide Harmless, ThreadOk, DatesOk;
    var next := Ended(s.(rows := rows, periods := periods), t);
    forall u | u in s.threads && u != t ensures ThreadOk(hash, next, u, s.threads[u]) {
      OthersKeep(hash, s, t, rows, periods, u);
    }
  }

  lemma AbortKeeps(hash: Hash, s: State, t: Tid)
    requires Ok(hash, s) && t in s.threads
    ensures Ok(hash, Ended(s, t))
  {
    hide ThreadsOk;
    EndKeeps(hash, s, t, s.rows, s.periods);
    assert s.(rows := s.rows, periods := s.periods) == s;
  }

  lemma ToKeeps(hash: Hash, s: State, t: Tid, thread: Thread)
    requires Ok(hash, s) && ThreadOk(hash, s, t, thread)
    ensures Ok(hash, To(s, t, thread))
  {
  }

  lemma LockedKeeps(hash: Hash, s: State, t: Tid, key: Key, thread: Thread)
    requires Ok(hash, s) && t in s.threads
    requires ThreadOk(hash, s.(locks := s.locks[hash(key) := t]), t, thread)
    ensures Ok(hash, Locked(hash, s, t, key, thread))
  {
    var next := Locked(hash, s, t, key, thread);
    hide ThreadOk, Locked, DatesOk;
    LockedView(hash, s, t, key, thread);
    if next != s {
      forall u | u in s.threads && u != t ensures ThreadOk(hash, next, u, s.threads[u]) {
        SameView(hash, s, next, u, s.threads[u]);
      }
      SameView(hash, s.(locks := s.locks[hash(key) := t]), next, t, thread);
    }
  }

  lemma LockedView(hash: Hash, s: State, t: Tid, key: Key, thread: Thread)
    ensures var next := Locked(hash, s, t, key, thread);
            next == s ||
            (next.rows == s.rows && next.periods == s.periods && next.threads == s.threads[t := thread] &&
             next.locks == s.locks[hash(key) := t] && (DatesOk(s) ==> DatesOk(next)) &&
             forall u, k | u != t && Has(hash, s, u, k) :: Has(hash, next, u, k))
  {
  }

  /** What a transaction relies on is the tables and its own locks. */
  lemma SameView(hash: Hash, s: State, next: State, u: Tid, c: Thread)
    requires ThreadOk(hash, s, u, c) && next.rows == s.rows && next.periods == s.periods
    requires forall key | Has(hash, s, u, key) :: Has(hash, next, u, key)
    ensures ThreadOk(hash, next, u, c)
  {
  }

  lemma SelectedDates(s: State, b: Id, rivals: set<Id>)
    requires DatesOk(s) && b in s.rows && s.rows[b].status == Pending
    requires !CalendarTaken(s, s.rows[b].item, s.rows[b].start, s.rows[b].end)
    requires !ReservedBy(s, {b}, s.rows[b].item, s.rows[b].start, s.rows[b].end)
    ensures DatesOk(s.(rows := Selected(s.rows, b, rivals)))
  {
  }

  /** The commit of `confirm`: the row checked under both locks is still pending and its dates still free. */
  lemma SelectKeeps(hash: Hash, s: State, t: Tid, b: Id, now: Time, item: Id, phase: nat, rivals: set<Id>)
    requires Ok(hash, s) && phase >= PICKED && t in s.threads && s.threads[t] == Confirming(b, now, item, phase, rivals)
    ensures Ok(hash, Ended(s.(rows := Selected(s.rows, b, rivals)), t))
  {
    assert ThreadOk(hash, s, t, s.threads[t]);
    hide ThreadsOk, DatesOk, ReservedBy, CalendarTaken;
    SelectedDates(s, b, rivals);
    EndDates(s.(rows := Selected(s.rows, b, rivals)), t);
    EndKeeps(hash, s, t, Selected(s.rows, b, rivals), s.periods);
  }

  /** A commit that reserves nothing new leaves the dates disjoint. */
  lemma QuietDates(s: State, rows: map<Id, Row>)
    requires DatesOk(s) && rows.Keys == s.rows.Keys
    requires forall b | b in rows ::
             rows[b].item == s.rows[b].item && rows[b].start == s.rows[b].start &&
             rows[b].end == s.rows[b].end
    requires forall b | b in rows && Reserving(rows[b].status) :: Reserving(s.rows[b].status)
    ensures DatesOk(s.(rows := rows))
  {
  }

  lemma EndDates(s: State, t: Tid)
    ensures DatesOk(Ended(s, t)) == DatesOk(s)
  {
  }

  lemma DropKeeps(hash: Hash, s: State, t: Tid, candidates: seq<Id>, chosen: set<Id>)
    requires Ok(hash, s) && t in s.threads && s.threads[t] == Blocking(candidates, |candidates|, Some(chosen))
    ensures Ok(hash, Ended(s.(rows := Dropped(s.rows, chosen)), t))
  {
    assert ThreadOk(hash, s, t, s.threads[t]);
    hide ThreadsOk, DatesOk;
    QuietDates(s, Dropped(s.rows, chosen));
    EndKeeps(hash, s, t, Dropped(s.rows, chosen), s.periods);
    EndDates(s.(rows := Dropped(s.rows, chosen)), t);
  }

  lemma SettleKeeps(hash: Hash, s: State, a: Action)
    requires Ok(hash, s) && Settles(s, a)
    ensures Ok(hash, Next(hash, s, a))
  {
    var c := s.threads[a.t];
    assert ThreadOk(hash, s, a.t, c);
    hide ThreadsOk, DatesOk;
    QuietDates(s, s.rows[c.booking := Write(s.rows[c.booking], c.seen, a.to)]);
    EndDates(s.(rows := s.rows[c.booking := Write(s.rows[c.booking], c.seen, a.to)]), a.t);
    EndKeeps(hash, s, a.t, s.rows[c.booking := Write(s.rows[c.booking], c.seen, a.to)], s.periods);
  }

  lemma CloseKeeps(hash: Hash, s: State, t: Tid, period: Id, item: Id, start: int, end: int, phase: nat)
    requires Ok(hash, s) && phase >= PICKED && t in s.threads &&
             s.threads[t] == Closing(period, item, start, end, phase)
    requires period !in s.periods
    ensures Ok(hash, Ended(s.(periods := s.periods[period := Market.Period(item, start, end)]), t))
  {
    assert ThreadOk(hash, s, t, s.threads[t]);
    hide ThreadsOk, ThreadOk, Ended;
    EndKeeps(hash, s, t, s.rows, s.periods[period := Market.Period(item, start, end)]);
  }

  lemma ConfirmAdvances(hash: Hash, s: State, t: Tid, b: Id, now: Time, item: Id, phase: nat, rivals: set<Id>)
    requires Ok(hash, s) && t in s.threads && s.threads[t] == Confirming(b, now, item, phase, rivals)
    ensures Ok(hash, AdvanceConfirm(hash, s, t, b, now, item, phase, rivals))
  {
    assert ThreadOk(hash, s, t, s.threads[t]);
    hide Ok, Selected, Ended;
    if phase == BEGUN { LockedKeeps(hash, s, t, BookingKey(b), Confirming(b, now, item, BOOKING_LOCKED, rivals)); }
    else {
      AbortKeeps(hash, s, t);
      if b in s.rows {
        if phase == BOOKING_LOCKED { ToKeeps(hash, s, t, Confirming(b, now, s.rows[b].item, FOUND, rivals)); }
        else if phase == FOUND {
          LockedKeeps(hash, s, t, ItemKey(item), Confirming(b, now, item, ITEM_LOCKED, rivals));
        }
        else if phase >= PICKED { SelectKeeps(hash, s, t, b, now, item, phase, rivals); }
        else {
          var next := AdvanceConfirm(hash, s, t, b, now, item, phase, rivals);
          if t in next.threads { ToKeeps(hash, s, t, next.threads[t]); }
        }
      }
    }
  }

  lemma CloseAdvances(hash: Hash, s: State, t: Tid, period: Id, item: Id, start: int, end: int, phase: nat)
    requires Ok(hash, s) && t in s.threads && s.threads[t] == Closing(period, item, start, end, phase)
    ensures Ok(hash, AdvanceClose(hash, s, t, period, item, start, end, phase))
  {
    assert ThreadOk(hash, s, t, s.threads[t]);
    hide Ok;
    AbortKeeps(hash, s, t);
    if phase == BEGUN { LockedKeeps(hash, s, t, ItemKey(item), Closing(period, item, start, end, ITEM_LOCKED)); }
    else if phase == ITEM_LOCKED {
      if !ReservedBy(s, {}, item, start, end) { ToKeeps(hash, s, t, Closing(period, item, start, end, DATES_FREE)); }
    }
    else if phase == DATES_FREE {
      if !CalendarTaken(s, item, start, end) { ToKeeps(hash, s, t, Closing(period, item, start, end, PICKED)); }
    }
    else if phase >= PICKED && period !in s.periods { CloseKeeps(hash, s, t, period, item, start, end, phase); }
  }

  lemma BlockAdvances(hash: Hash, s: State, t: Tid, candidates: seq<Id>, taken: nat, chosen: Option<set<Id>>)
    requires Ok(hash, s) && t in s.threads && s.threads[t] == Blocking(candidates, taken, chosen)
    ensures Ok(hash, AdvanceBlock(hash, s, t, candidates, taken, chosen))
  {
    assert ThreadOk(hash, s, t, s.threads[t]);
    hide Ok;
    if taken < |candidates| {
      LockedKeeps(hash, s, t, BookingKey(candidates[taken]), Blocking(candidates, taken + 1, chosen));
    }
    else if chosen.None? {
      ToKeeps(hash, s, t, Blocking(candidates, taken, Some(set b | b in s.rows && b in candidates &&
          s.rows[b].status == Pending)));
    }
    else { DropKeeps(hash, s, t, candidates, chosen.value); }
  }

  lemma ChangeAdvances(hash: Hash, s: State, t: Tid, b: Id, phase: nat, seen: BookingStatus)
    requires Ok(hash, s) && t in s.threads && s.threads[t] == Changing(b, phase, seen)
    ensures Ok(hash, AdvanceChange(hash, s, t, b, phase, seen))
  {
    assert ThreadOk(hash, s, t, s.threads[t]);
    hide Ok;
    AbortKeeps(hash, s, t);
    if phase == BEGUN { LockedKeeps(hash, s, t, BookingKey(b), Changing(b, BOOKING_LOCKED, seen)); }
    else if b in s.rows && phase == BOOKING_LOCKED { ToKeeps(hash, s, t, Changing(b, FOUND, s.rows[b].status)); }
  }

  lemma ExpiryAdvances(hash: Hash, s: State, t: Tid, b: Id, phase: nat, now: Time)
    requires Ok(hash, s) && t in s.threads && s.threads[t] == Expiring(b, phase, now)
    ensures Ok(hash, AdvanceExpiry(hash, s, t, b, phase, now))
  {
    hide Ok;
    if phase == BEGUN {
      assert ThreadOk(hash, s, t, s.threads[t]);
      LockedKeeps(hash, s, t, BookingKey(b), Expiring(b, BOOKING_LOCKED, now));
    } else {
      ExpireKeeps(hash, s, t, b, phase, now);
    }
  }

  lemma ExpireKeeps(hash: Hash, s: State, t: Tid, b: Id, phase: nat, now: Time)
    requires Ok(hash, s) && t in s.threads && s.threads[t] == Expiring(b, phase, now) && phase >= BOOKING_LOCKED
    ensures Ok(hash, Ended(s.(rows := Expired(s.rows, b, now)), t))
  {
    assert ThreadOk(hash, s, t, s.threads[t]);
    hide ThreadsOk, DatesOk;
    QuietDates(s, Expired(s.rows, b, now));
    EndDates(s.(rows := Expired(s.rows, b, now)), t);
    EndKeeps(hash, s, t, Expired(s.rows, b, now), s.periods);
  }

  /** A new request reserves nothing, and an opened period blocks nothing. */
  lemma InsertKeeps(hash: Hash, s: State, id: Id, row: Row)
    requires Ok(hash, s) && id !in s.rows && row.status == Pending
    ensures Ok(hash, s.(rows := s.rows[id := row]))
  {
    var next := s.(rows := s.rows[id := row]);
    assert DatesOk(next);
    hide DatesOk, ThreadOk;
    forall t | t in s.threads ensures ThreadOk(hash, next, t, s.threads[t]) {
      InsertView(hash, s, id, row, t, s.threads[t]);
    }
  }

  lemma InsertView(hash: Hash, s: State, id: Id, row: Row, t: Tid, c: Thread)
    requires ThreadOk(hash, s, t, c) && id !in s.rows && row.status == Pending
    ensures ThreadOk(hash, s.(rows := s.rows[id := row]), t, c)
  {
    var next := s.(rows := s.rows[id := row]);
    assert forall key | Has(hash, s, t, key) :: Has(hash, next, t, key);
  }

  lemma ReopenKeeps(hash: Hash, s: State, period: Id)
    requires Ok(hash, s)
    ensures Ok(hash, s.(periods := s.periods - {period}))
  {
    var next := s.(periods := s.periods - {period});
    forall t | t in s.threads ensures ThreadOk(hash, next, t, s.threads[t]) {
      assert ThreadOk(hash, s, t, s.threads[t]);
      assert forall key | Has(hash, s, t, key) :: Has(hash, next, t, key);
    }
  }

  lemma NextKeeps(hash: Hash, s: State, a: Action)
    requires Ok(hash, s)
    ensures Ok(hash, Next(hash, s, a))
  {
    hide Ok, AdvanceConfirm, AdvanceChange, AdvanceExpiry, AdvanceBlock, AdvanceClose, Ended;
    match a
    case Insert(id, item, start, end, expiresAt) =>
      if id !in s.rows { InsertKeeps(hash, s, id, Row(item, start, end, expiresAt, Pending, [])); }
    case Reopen(period) => ReopenKeeps(hash, s, period);
    case Start(t, thread) => if t !in s.threads && Fresh(thread) { ToKeeps(hash, s, t, thread); }
    case Advance(t) =>
      if t in s.threads {
        match s.threads[t]
        case Confirming(b, now, item, phase, rivals) => ConfirmAdvances(hash, s, t, b, now, item, phase, rivals);
        case Changing(b, phase, seen) => ChangeAdvances(hash, s, t, b, phase, seen);
        case Expiring(b, phase, now) => ExpiryAdvances(hash, s, t, b, phase, now);
        case Blocking(candidates, taken, chosen) => BlockAdvances(hash, s, t, candidates, taken, chosen);
        case Closing(period, item, start, end, phase) => CloseAdvances(hash, s, t, period, item, start, end, phase);
      }
    case Settle(t, to) => if Settles(s, a) { SettleKeeps(hash, s, a); }
    case Rollback(t) => if t in s.threads { AbortKeeps(hash, s, t); }
  }

  lemma {:induction false} RunKeeps(hash: Hash, s: State, actions: seq<Action>)
    requires Ok(hash, s)
    ensures Ok(hash, Run(hash, s, actions))
    decreases |actions|
  {
    hide Ok, Next;
    if actions != [] {
      NextKeeps(hash, s, actions[0]);
      RunKeeps(hash, Next(hash, s, actions[0]), actions[1..]);
    }
  }

  // ---------------------------------------------------------------- main results

  /**
   * Under every interleaving and every hash, no day of an item is held by two bookings, or by a booking
   * and a period the owner closed, or by two such periods.
   */
  lemma NoDayTwice(hash: Hash, actions: seq<Action>, item: Id, day: int)
    ensures var s := Run(hash, NOTHING, actions);
            && (forall a, b | a in s.rows && b in s.rows && Reserving(s.rows[a].status) &&
               Reserving(s.rows[b].status) &&
                              Meets(s.rows[a], item, day, day) && Meets(s.rows[b], item, day, day) :: a == b)
            && (forall a, p | a in s.rows && p in s.periods && Reserving(s.rows[a].status) &&
               Meets(s.rows[a], item, day, day) ::
                  !(s.periods[p].item == item && s.periods[p].start <= day <= s.periods[p].end))
            && (forall p, q | p in s.periods && q in s.periods &&
                              s.periods[p].item == item && s.periods[p].start <= day <= s.periods[p].end &&
                              s.periods[q].item == item && s.periods[q].start <= day <= s.periods[q].end :: p == q)
  {
    assert Ok(hash, NOTHING);
    hide Run, ThreadsOk;
    RunKeeps(hash, NOTHING, actions);
  }

  /** The rows a step commits. */
  function Committed(s: State, a: Action): map<Id, Row> {
    if Settles(s, a) then
      var c := s.threads[a.t];
      s.rows[c.booking := Write(s.rows[c.booking], c.seen, a.to)]
    else if a.Advance? && a.t in s.threads then
      match s.threads[a.t]
      case Confirming(b, _, _, phase, rivals) =>
        if phase >= PICKED && b in s.rows then Selected(s.rows, b, rivals) else s.rows
      case Expiring(b, phase, now) => if phase >= BOOKING_LOCKED then Expired(s.rows, b, now) else s.rows
      case Blocking(candidates, taken, chosen) =>
        if taken >= |candidates| && chosen.Some? then Dropped(s.rows, chosen.value) else s.rows
      case _ => s.rows
    else s.rows
  }

  lemma RowsAreCommitted(hash: Hash, s: State, a: Action, b: Id)
    requires b in s.rows
    ensures b in Committed(s, a) && b in Next(hash, s, a).rows && Next(hash, s, a).rows[b] == Committed(s, a)[b]
  {
    hide Write, Drop, Live, CalendarTaken, ReservedBy, Rivals;
    if a.Advance? && a.t in s.threads { hide Selected, Dropped; }
  }

  /** Whatever is committed in between, a status moves as the booking contract says, and never back. */
  lemma StatusesMoveForward(hash: Hash, s: State, a: Action, b: Id)
    requires Ok(hash, s) && b in s.rows
    ensures var next := Next(hash, s, a);
            b in next.rows &&
            (next.rows[b].status == s.rows[b].status || BookingMay(s.rows[b].status, next.rows[b].status) ||
             (s.rows[b].status == Active && next.rows[b].status == Completed))
  {
    hide Next;
    RowsAreCommitted(hash, s, a, b);
    if a.Advance? && a.t in s.threads { assert ThreadOk(hash, s, a.t, s.threads[a.t]); }
    if Settles(s, a) { assert ThreadOk(hash, s, a.t, s.threads[a.t]); }
  }

  // ---------------------------------------------------------------- histories

  /** The history leads from PENDING to the current status without a gap. */
  predicate Path(row: Row) {
    && (forall i | 0 < i < |row.log| :: row.log[i].0 == row.log[i - 1].1)
    && (if row.log == [] then row.status == Pending
        else row.log[0].0 == Pending && row.log[|row.log| - 1].1 == row.status)
  }

  /** The commit logs a change of `b` from a status the row no longer has. */
  predicate Stale(s: State, a: Action, b: Id)
    requires b in s.rows
  {
    if a.Settle? then Settles(s, a) && s.threads[a.t].booking == b && s.rows[b].status != s.threads[a.t].seen
    else
      a.Advance? && a.t in s.threads && s.rows[b].status != Pending &&
      match s.threads[a.t]
      case Confirming(booking, _, _, phase, rivals) =>
        phase >= PICKED && booking in s.rows && b in rivals && b != booking
      case Blocking(candidates, taken, chosen) => taken >= |candidates| && chosen.Some? && b in chosen.value
      case _ => false
  }

  lemma AppendedPath(row: Row, seen: BookingStatus, to: BookingStatus, next: Row)
    requires Path(row) && next.log == row.log + [(seen, to)] && (row.status == seen ==> next.status == to)
    ensures Path(next) <==> row.status == seen
  {
    var n := |row.log|;
    if row.status == seen {
      forall i | 0 < i <= n ensures next.log[i].0 == next.log[i - 1].1 {
        if i < n { assert row.log[i].0 == row.log[i - 1].1; }
      }
    } else if n > 0 {
      assert next.log[n].0 != next.log[n - 1].1;
    }
  }

  /** One step keeps a history a path exactly when it does not log a change from a status that was overtaken. */
  lemma HistoryStaysPath(hash: Hash, s: State, a: Action, b: Id)
    requires Ok(hash, s) && b in s.rows && Path(s.rows[b])
    ensures b in Next(hash, s, a).rows
    ensures Path(Next(hash, s, a).rows[b]) <==> !Stale(s, a, b)
  {
    var row := s.rows[b];
    AppendedPath(row, Pending, Confirmed, Write(row, Pending, Confirmed));
    AppendedPath(row, Pending, Cancelled, Drop(row));
    RowsAreCommitted(hash, s, a, b);
    hide Next, Path, DatesOk;
    if a.Advance? && a.t in s.threads { assert ThreadOk(hash, s, a.t, s.threads[a.t]); }
    if Settles(s, a) { AppendedPath(row, s.threads[a.t].seen, a.to, Write(row, s.threads[a.t].seen, a.to)); }
  }

  /** Some step of the run logs a change of `b` from a status that was overtaken. */
  predicate SomeStale(hash: Hash, s: State, actions: seq<Action>, b: Id)
    decreases |actions|
  {
    actions != [] &&
    ((b in s.rows && Stale(s, actions[0], b)) || SomeStale(hash, Next(hash, s, actions[0]), actions[1..], b))
  }

  /** The history has a gap that no later entry closes. */
  predicate Gap(row: Row) {
    row.log != [] && (row.log[0].0 != Pending || exists i :: 0 < i < |row.log| && row.log[i].0 != row.log[i - 1].1)
  }

  lemma GapStays(row: Row, next: Row)
    requires Gap(row) && row.log <= next.log
    ensures Gap(next) && !Path(next)
  {
    if row.log[0].0 == Pending {
      var i :| 0 < i < |row.log| && row.log[i].0 != row.log[i - 1].1;
      assert next.log[i].0 == row.log[i].0 && next.log[i - 1].1 == row.log[i - 1].1;
    }
  }

  lemma LogsGrow(hash: Hash, s: State, a: Action, b: Id)
    requires b in s.rows
    ensures b in Next(hash, s, a).rows && s.rows[b].log <= Next(hash, s, a).rows[b].log
  {
    hide Next;
    RowsAreCommitted(hash, s, a, b);
  }

  /** A change logged from an overtaken status leaves a gap. */
  lemma StaleGaps(hash: Hash, s: State, a: Action, b: Id)
    requires b in s.rows && Path(s.rows[b]) && Stale(s, a, b)
    ensures b in Next(hash, s, a).rows && Gap(Next(hash, s, a).rows[b])
  {
    RowsAreCommitted(hash, s, a, b);
    hide Next;
    var row, next := s.rows[b], Committed(s, a)[b];
    var n := |row.log|;
    assert n < |next.log| && next.log[..n] == row.log && next.log[n].0 != row.status;
    if n > 0 { assert next.log[n - 1] == row.log[n - 1]; }
  }

  lemma {:induction false} GapLasts(hash: Hash, s: State, actions: seq<Action>, b: Id)
    requires b in s.rows && Gap(s.rows[b])
    ensures b in Run(hash, s, actions).rows && !Path(Run(hash, s, actions).rows[b])
    decreases |actions|
  {
    hide Next, Gap, Path;
    GapStays(s.rows[b], s.rows[b]);
    if actions != [] {
      LogsGrow(hash, s, actions[0], b);
      GapStays(s.rows[b], Next(hash, s, actions[0]).rows[b]);
      GapLasts(hash, Next(hash, s, actions[0]), actions[1..], b);
    }
  }

  lemma {:induction false} HistoryFrom(hash: Hash, s: State, actions: seq<Action>, b: Id)
    requires Ok(hash, s) && b in Run(hash, s, actions).rows && (b in s.rows ==> Path(s.rows[b]))
    ensures Path(Run(hash, s, actions).rows[b]) <==> !SomeStale(hash, s, actions, b)
    decreases |actions|
  {
    hide Ok, Next, Gap, Path, Stale;
    if actions != [] {
      var next := Next(hash, s, actions[0]);
      NextKeeps(hash, s, actions[0]);
      if b in s.rows {
        HistoryStaysPath(hash, s, actions[0], b);
        if Stale(s, actions[0], b) {
          StaleGaps(hash, s, actions[0], b);
          GapLasts(hash, next, actions[1..], b);
        }
      } else if b in next.rows {
        InsertedPath(hash, s, actions[0], b);
      }
      if !(b in s.rows && Stale(s, actions[0], b)) { HistoryFrom(hash, next, actions[1..], b); }
    }
  }

  lemma InsertedPath(hash: Hash, s: State, a: Action, b: Id)
    requires b !in s.rows && b in Next(hash, s, a).rows
    ensures Path(Next(hash, s, a).rows[b])
  {
    hide Live, CalendarTaken, ReservedBy, Rivals;
  }

  /** Over a whole run a history is a path at the end exactly when no step logged a change from an overtaken status. */
  lemma HistoryIsPathIff(hash: Hash, actions: seq<Action>, b: Id)
    requires b in Run(hash, NOTHING, actions).rows
    ensures Path(Run(hash, NOTHING, actions).rows[b]) <==> !SomeStale(hash, NOTHING, actions, b)
  {
    hide Ok, Run, SomeStale, Path;
    NothingOk(hash);
    HistoryFrom(hash, NOTHING, actions, b);
  }

  // ---------------------------------------------------------------- one transaction alone

  lemma {:induction false} RunAppend(hash: Hash, s: State, before: seq<Action>, after: seq<Action>)
    ensures Run(hash, s, before + after) == Run(hash, Run(hash, s, before), after)
    decreases |before|
  {
    if before == [] { assert before + after == after; }
    else {
      assert (before + after)[1..] == before[1..] + after;
      RunAppend(hash, Next(hash, s, before[0]), before[1..], after);
    }
  }

  function Steps(t: Tid, n: nat): seq<Action> {
    seq(n, _ => Advance(t))
  }

  lemma OneMore(hash: Hash, s: State, t: Tid, n: nat)
    ensures Run(hash, s, Steps(t, n + 1)) == Run(hash, Next(hash, s, Advance(t)), Steps(t, n))
  {
    assert Steps(t, n + 1)[1..] == Steps(t, n);
  }

  lemma {:induction false} GoneStays(hash: Hash, s: State, t: Tid, n: nat)
    requires t !in s.threads
    ensures Run(hash, s, Steps(t, n)) == s
    decreases n
  {
    if n > 0 {
      OneMore(hash, s, t, n - 1);
      GoneStays(hash, s, t, n - 1);
    }
  }

  /** What `confirm` does when it runs in one piece. */
  function Confirm(s: State, b: Id, now: Time): map<Id, Row> {
    if b in s.rows && Live(s.rows[b], now) &&
       !CalendarTaken(s, s.rows[b].item, s.rows[b].start, s.rows[b].end) &&
       !ReservedBy(s, {b}, s.rows[b].item, s.rows[b].start, s.rows[b].end)
    then Selected(s.rows, b, Rivals(s, b, now)) else s.rows
  }

  /** The checked part: both locks are taken, the rest is reads and the commit. */
  lemma ChecksAlone(hash: Hash, s: State, t: Tid, b: Id, now: Time)
    requires b in s.rows && t in s.threads && s.threads[t] == Confirming(b, now, s.rows[b].item, ITEM_LOCKED, {})
    ensures Run(hash, s, Steps(t, 5)) == Ended(s.(rows := Confirm(s, b, now)), t)
  {
    var item := s.rows[b].item;
    var row := s.rows[b];
    OneMore(hash, s, t, 4);
    if !Live(row, now) { GoneStays(hash, Ended(s, t), t, 4); }
    else {
      var s1 := To(s, t, Confirming(b, now, item, STILL_PENDING, {}));
      Reads(s, t, s1.threads[t], b, now);
      OneMore(hash, s1, t, 3);
      if CalendarTaken(s, item, row.start, row.end) { GoneStays(hash, Ended(s, t), t, 3); }
      else {
        var s2 := To(s, t, Confirming(b, now, item, CALENDAR_FREE, {}));
        Reads(s, t, s2.threads[t], b, now);
        OneMore(hash, s2, t, 2);
        if ReservedBy(s, {b}, item, row.start, row.end) { GoneStays(hash, Ended(s, t), t, 2); }
        else {
          PickAlone(hash, s, t, b, now, item);
        }
      }
    }
  }

  lemma PickAlone(hash: Hash, s: State, t: Tid, b: Id, now: Time, item: Id)
    requires b in s.rows
    ensures Run(hash, To(s, t, Confirming(b, now, item, DATES_FREE, {})), Steps(t, 2)) ==
              Ended(s.(rows := Selected(s.rows, b, Rivals(s, b, now))), t)
  {
    hide Selected;
    var s3 := To(s, t, Confirming(b, now, item, DATES_FREE, {}));
    var s4 := To(s, t, Confirming(b, now, item, PICKED, Rivals(s, b, now)));
    Reads(s, t, s3.threads[t], b, now);
    OneMore(hash, s3, t, 1);
    assert Next(hash, s3, Advance(t)) == s4;
    OneMore(hash, s4, t, 0);
    Reads(s, t, s4.threads[t], b, now);
  }

  /** Only the tables are read, and an ended transaction leaves no trace of its phases. */
  lemma Reads(s: State, t: Tid, x: Thread, b: Id, now: Time)
    requires b in s.rows
    ensures forall item, start, end ::
            CalendarTaken(To(s, t, x), item, start, end) ==
            CalendarTaken(s, item, start, end)
    ensures forall item, start, end ::
            ReservedBy(To(s, t, x), {b}, item, start, end) ==
            ReservedBy(s, {b}, item, start, end)
    ensures Rivals(To(s, t, x), b, now) == Rivals(s, b, now)
    ensures forall y :: To(To(s, t, x), t, y) == To(s, t, y)
    ensures forall rows :: Ended(To(s, t, x).(rows := rows), t) == Ended(s.(rows := rows), t)
    ensures Ended(To(s, t, x), t) == Ended(s, t)
  {
    assert To(s, t, x).threads - {t} == s.threads - {t};
    assert To(s, t, x).rows == s.rows && To(s, t, x).periods == s.periods;
  }

  function ConfirmAlone(t: Tid, b: Id, now: Time): seq<Action> {
    [Start(t, Confirming(b, now, 0, BEGUN, {}))] + Steps(t, 8)
  }

  ghost predicate Idle(hash: Hash, s: State, t: Tid, b: Id) {
    t !in s.threads && (forall lock | lock in s.locks :: s.locks[lock] != t) &&
    hash(BookingKey(b)) !in s.locks && (b in s.rows ==> hash(ItemKey(s.rows[b].item)) !in s.locks)
  }

  /** Undisturbed, the split transaction does exactly what the whole one does. */
  lemma AloneIsAtomic(hash: Hash, s: State, t: Tid, b: Id, now: Time)
    requires Idle(hash, s, t, b)
    ensures Run(hash, s, ConfirmAlone(t, b, now)) == s.(rows := Confirm(s, b, now))
  {
    hide Confirm, Next;
    var begun := To(s, t, Confirming(b, now, 0, BEGUN, {}));
    var locked := To(s.(locks := s.locks[hash(BookingKey(b)) := t]), t, Confirming(b, now, 0, BOOKING_LOCKED, {}));
    assert ConfirmAlone(t, b, now)[1..] == Steps(t, 8);
    Begins(hash, s, t, b, now);
    OneMore(hash, begun, t, 7);
    OneMore(hash, locked, t, 6);
    if b !in s.rows {
      NoRow(hash, s, t, b, now, locked);
      GoneStays(hash, s, t, 6);
    } else {
      LocksAlone(hash, s, t, b, now, locked);
    }
  }

  lemma Begins(hash: Hash, s: State, t: Tid, b: Id, now: Time)
    requires Idle(hash, s, t, b)
    ensures var begun := To(s, t, Confirming(b, now, 0, BEGUN, {}));
            Next(hash, s, Start(t, Confirming(b, now, 0, BEGUN, {}))) == begun &&
            Next(hash, begun, Advance(t)) ==
              To(s.(locks := s.locks[hash(BookingKey(b)) := t]), t, Confirming(b, now, 0, BOOKING_LOCKED, {}))
  {
    hide Confirm;
  }

  lemma NoRow(hash: Hash, s: State, t: Tid, b: Id, now: Time, locked: State)
    requires Idle(hash, s, t, b) && b !in s.rows
    requires locked == To(s.(locks := s.locks[hash(BookingKey(b)) := t]), t, Confirming(b, now, 0, BOOKING_LOCKED, {}))
    ensures Next(hash, locked, Advance(t)) == s && Confirm(s, b, now) == s.rows
  {
    Forgets(s, t, locked);
  }

  lemma LocksAlone(hash: Hash, s: State, t: Tid, b: Id, now: Time, locked: State)
    requires Idle(hash, s, t, b) && b in s.rows
    requires locked == To(s.(locks := s.locks[hash(BookingKey(b)) := t]), t, Confirming(b, now, 0, BOOKING_LOCKED, {}))
    ensures Run(hash, Next(hash, locked, Advance(t)), Steps(t, 6)) == s.(rows := Confirm(s, b, now))
  {
    hide Confirm, Next, Ended;
    var item := s.rows[b].item;
    var found := To(s.(locks := s.locks[hash(BookingKey(b)) := t]), t, Confirming(b, now, item, FOUND, {}));
    var both := To(s.(locks := s.locks[hash(BookingKey(b)) := t][hash(ItemKey(item)) := t]), t,
        Confirming(b, now, item, ITEM_LOCKED, {}));
    LocksItem(hash, s, t, b, now, locked, found, both);
    OneMore(hash, found, t, 5);
    ChecksAlone(hash, both, t, b, now);
    SameConfirm(s, both, b, now);
    var after := s.(rows := Confirm(s, b, now));
    assert both.(rows := Confirm(s, b, now)) == State(after.rows, s.periods, both.threads, both.locks);
    Forgets(after, t, both.(rows := Confirm(s, b, now)));
  }

  lemma LocksItem(hash: Hash, s: State, t: Tid, b: Id, now: Time, locked: State, found: State, both: State)
    requires Idle(hash, s, t, b) && b in s.rows
    requires locked == To(s.(locks := s.locks[hash(BookingKey(b)) := t]), t, Confirming(b, now, 0, BOOKING_LOCKED, {}))
    requires found == To(s.(locks := s.locks[hash(BookingKey(b)) := t]), t,
             Confirming(b, now, s.rows[b].item, FOUND, {}))
    requires both == To(s.(locks := s.locks[hash(BookingKey(b)) := t][hash(ItemKey(s.rows[b].item)) := t]), t,
                        Confirming(b, now, s.rows[b].item, ITEM_LOCKED, {}))
    ensures Next(hash, locked, Advance(t)) == found && Next(hash, found, Advance(t)) == both
  {
  }

  lemma SameConfirm(s: State, next: State, b: Id, now: Time)
    requires next.rows == s.rows && next.periods == s.periods
    ensures Confirm(next, b, now) == Confirm(s, b, now)
  {
    if b in s.rows {
      assert CalendarTaken(next, s.rows[b].item, s.rows[b].start, s.rows[b].end) ==
        CalendarTaken(s, s.rows[b].item, s.rows[b].start, s.rows[b].end);
      assert ReservedBy(next, {b}, s.rows[b].item, s.rows[b].start, s.rows[b].end) ==
        ReservedBy(s, {b}, s.rows[b].item, s.rows[b].start, s.rows[b].end);
      assert Rivals(next, b, now) == Rivals(s, b, now);
    }
  }

  /** When `t` ends, its locks and its phase are gone. */
  lemma Forgets(s: State, t: Tid, later: State)
    requires t !in s.threads && (forall lock | lock in s.locks :: s.locks[lock] != t)
    requires later.rows == s.rows && later.periods == s.periods && later.threads - {t} == s.threads
    requires s.locks.Keys <= later.locks.Keys && forall lock | lock in later.locks ::
               if lock in s.locks then later.locks[lock] == s.locks[lock] else later.locks[lock] == t
    ensures Ended(later, t) == s
  {
    var left := Released(later.locks, t);
    forall lock ensures (lock in left <==> lock in s.locks) && (lock in left ==> left[lock] == s.locks[lock]) {
      if lock in s.locks { assert lock in later.locks && later.locks[lock] == s.locks[lock]; }
    }
    assert left.Keys == s.locks.Keys;
    assert left == s.locks;
  }

  // ---------------------------------------------------------------- what needs whole transactions

  /**
   * The history of a request is no path in every interleaving: a cancellation that has read PENDING is
   * overtaken by the confirmation of a rival, which takes no lock on the request, and logs a second
   * change from PENDING.
   */
  lemma OvertakenCancel(hash: Hash, s: State, t: Tid, u: Tid, b: Id, c: Id, now: Time)
    requires Ok(hash, s) && Idle(hash, s, t, b) && b in s.rows && c in Rivals(s, b, now) && Confirm(s, b, now) != s.rows
    requires u != t && u in s.threads && s.threads[u] == Changing(c, FOUND, Pending) && Path(s.rows[c])
    ensures var cancelled := Next(hash, Run(hash, s, ConfirmAlone(t, b, now)), Settle(u, Cancelled)).rows;
            c in cancelled && !Path(cancelled[c]) && cancelled[c].log ==
                s.rows[c].log + [(Pending, Cancelled), (Pending, Cancelled)]
  {
    AloneIsAtomic(hash, s, t, b, now);
    hide Run, ConfirmAlone, CalendarTaken, ReservedBy, Ok, Path;
    var dropped := s.(rows := Selected(s.rows, b, Rivals(s, b, now)));
    SettlesOvertaken(hash, dropped, u, c, s.rows[c]);
  }

  lemma SettlesOvertaken(hash: Hash, dropped: State, u: Tid, c: Id, row: Row)
    requires c in dropped.rows && dropped.rows[c] == Drop(row) && row.status == Pending
    requires u in dropped.threads && dropped.threads[u] == Changing(c, FOUND, Pending)
    ensures var cancelled := Next(hash, dropped, Settle(u, Cancelled)).rows;
            c in cancelled && !Path(cancelled[c]) && cancelled[c].log ==
                row.log + [(Pending, Cancelled), (Pending, Cancelled)]
  {
    var log := row.log + [(Pending, Cancelled), (Pending, Cancelled)];
    assert Settles(dropped, Settle(u, Cancelled));
    assert Next(hash, dropped, Settle(u, Cancelled)).rows[c].log == log;
    assert log[|row.log| + 1].0 != log[|row.log|].1;
  }

  /** Such a state is reached: two requests for the same day, one of them about to be cancelled. */
  lemma CancelOvertaken(hash: Hash) returns (s: State, actions: seq<Action>)
    requires Injective(hash)
    ensures s == Run(hash, NOTHING, actions) && Ok(hash, s) && Idle(hash, s, 1, 1) && 1 in s.rows &&
            2 in Rivals(s, 1, 0)
    ensures Confirm(s, 1, 0) != s.rows && 2 in s.threads && s.threads[2] == Changing(2, FOUND, Pending) &&
            Path(s.rows[2])
  {
    hide Next, Run, Ok, DatesOk;
    var row := Row(7, 3, 3, 10, Pending, []);
    s := State(map[1 := row, 2 := row], map[], map[2 := Changing(2, FOUND, Pending)], map[hash(BookingKey(2)) := 2]);
    actions := [Insert(1, 7, 3, 3, 10), Insert(2, 7, 3, 3, 10), Start(2, Changing(2, BEGUN, Pending)), Advance(2),
        Advance(2)];
    CancelReads(hash, row, s);
    Unrolled(hash, NOTHING, actions[0], actions[1], actions[2], actions[3], actions[4]);
    NothingOk(hash);
    RunKeeps(hash, NOTHING, actions);
    assert !ReservedBy(s, {1}, 7, 3, 3) && !CalendarTaken(s, 7, 3, 3);
    assert Selected(s.rows, 1, Rivals(s, 1, 0))[1].status == Confirmed;
  }

  lemma NothingOk(hash: Hash)
    ensures Ok(hash, NOTHING)
  {
  }

  lemma CancelReads(hash: Hash, row: Row, s: State)
    requires row == Row(7, 3, 3, 10, Pending, [])
    requires s == State(map[1 := row, 2 := row], map[], map[2 := Changing(2, FOUND, Pending)],
             map[hash(BookingKey(2)) := 2])
    ensures var s2 := Next(hash, Next(hash, NOTHING, Insert(1, 7, 3, 3, 10)), Insert(2, 7, 3, 3, 10));
            Next(hash, Next(hash, Next(hash, s2, Start(2, Changing(2, BEGUN, Pending))), Advance(2)), Advance(2)) == s
  {
    assert Next(hash, NOTHING, Insert(1, 7, 3, 3, 10)) == NOTHING.(rows := map[1 := row]);
    var s2 := Next(hash, NOTHING.(rows := map[1 := row]), Insert(2, 7, 3, 3, 10));
    assert s2 == NOTHING.(rows := map[1 := row, 2 := row]);
    var s3 := Next(hash, s2, Start(2, Changing(2, BEGUN, Pending)));
    assert s3 == State(s2.rows, map[], map[2 := Changing(2, BEGUN, Pending)], map[]);
    var s4 := Next(hash, s3, Advance(2));
    assert s4 == State(s2.rows, map[], map[2 := Changing(2, BOOKING_LOCKED, Pending)], map[hash(BookingKey(2)) := 2]);
  }

  lemma Unrolled(hash: Hash, s: State, a: Action, b: Action, c: Action, d: Action, e: Action)
    ensures Run(hash, s, [a, b, c, d, e]) ==
            Next(hash, Next(hash, Next(hash, Next(hash, Next(hash, s, a), b), c), d), e)
  {
    hide Next;
    assert [a, b, c, d, e] == [a] + ([b] + ([c] + ([d] + [e])));
    RunAppend(hash, s, [a], [b] + ([c] + ([d] + [e])));
    RunAppend(hash, Next(hash, s, a), [b], [c] + ([d] + [e]));
    RunAppend(hash, Next(hash, Next(hash, s, a), b), [c], [d] + [e]);
    RunAppend(hash, Next(hash, Next(hash, Next(hash, s, a), b), c), [d], [e]);
  }

  /**
   * Each confirmation reads its clock before it waits for its locks, so the conflict check is needed. After
   * `b` was confirmed, a pending request `c` on its dates is alive for a confirmation with another clock,
   * and meets the reserved dates, exactly when it had run out by the first clock and not by the other one.
   * Then, as in every other case, the second confirmation changes nothing.
   */
  lemma OtherClockMeetsReservedIff(hash: Hash, s: State, t: Tid, b: Id, c: Id, now: Time, other: Time)
    requires Idle(hash, s, t, b) && Idle(hash, s, t, c) && b in s.rows && c in s.rows && b != c
    requires Confirm(s, b, now) != s.rows
    requires Meets(s.rows[c], s.rows[b].item, s.rows[b].start, s.rows[b].end) && s.rows[c].status == Pending
    ensures var first := Run(hash, s, ConfirmAlone(t, b, now));
            b in first.rows && c in first.rows && first.rows[b].status == Confirmed &&
            (Live(first.rows[c], other) &&
             ReservedBy(first, {c}, first.rows[c].item, first.rows[c].start, first.rows[c].end)
             <==> other < s.rows[c].expiresAt <= now) &&
            Run(hash, first, ConfirmAlone(t, c, other)) == first
  {
    AloneIsAtomic(hash, s, t, b, now);
    var first := Run(hash, s, ConfirmAlone(t, b, now));
    assert first == s.(rows := Confirm(s, b, now));
    hide Run, ConfirmAlone;
    assert first.rows[b].status == Confirmed && first.rows[c].item == first.rows[b].item;
    assert first.rows[c] == if s.rows[c].expiresAt > now then Drop(s.rows[c]) else s.rows[c];
    assert ReservedBy(first, {c}, first.rows[c].item, first.rows[c].start, first.rows[c].end);
    AloneIsAtomic(hash, first, t, c, other);
  }

  /** Such a state is reached, under any hash: two requests for one day, of which the second runs out first. */
  lemma OtherClockReached(hash: Hash) returns (s: State, actions: seq<Action>, now: Time, other: Time)
    ensures s == Run(hash, NOTHING, actions) && Idle(hash, s, 1, 1) && Idle(hash, s, 1, 2) && 1 in s.rows && 2 in s.rows
    ensures Confirm(s, 1, now) != s.rows && Meets(s.rows[2], s.rows[1].item, s.rows[1].start, s.rows[1].end)
    ensures s.rows[2].status == Pending && other < s.rows[2].expiresAt <= now
  {
    now, other := 10, 9;
    var first, second := Row(7, 3, 3, 20, Pending, []), Row(7, 3, 3, 10, Pending, []);
    s := NOTHING.(rows := map[1 := first, 2 := second]);
    actions := [Insert(1, 7, 3, 3, 20), Insert(2, 7, 3, 3, 10)];
    assert Next(hash, NOTHING, actions[0]) == NOTHING.(rows := map[1 := first]);
    assert Next(hash, NOTHING.(rows := map[1 := first]), actions[1]) == s;
    assert actions[1..] == [actions[1]] && actions[1..][1..] == [];
    assert Run(hash, s, []) == s;
    assert Run(hash, NOTHING.(rows := map[1 := first]), [actions[1]]) == s;
    hide Next, Run;
    assert !ReservedBy(s, {1}, 7, 3, 3) && !CalendarTaken(s, 7, 3, 3);
    assert Selected(s.rows, 1, Rivals(s, 1, now))[1].status == Confirmed;
  }
}
