/** Commands across bookings, and all runs. */
module MarketRuns {
  import opened Domain
  import opened Deals
  import opened DealInvariant
  import opened Evolution
  import opened Price
  import opened Market
  import opened MarketInvariant

  // ---------------------------------------------------------------- a new request

  lemma NewDealOk(m: Market, r: Request, listing: Option<Listing>, policy: Policy, blocked: bool, today: int)
    requires BookTx(m, r, listing, policy, blocked, today).New?
    ensures var d := BookTx(m, r, listing, policy, blocked, today).deal;
            Inv(d) && d.start <= d.end < d.start + MAX_DAYS && d.status == Pending && d.ops == [] &&
            d.item == r.item && d.start == r.start && d.end == r.end && d.borrower == r.borrower &&
                d.request == r.request
  {
  }

  lemma BookCaps(m: Market, id: Id, d: Deal)
    requires Capped(m) && id !in m.deals
    requires |Competing(m, d.item, d.start, d.end)| < MAX_COMPETING_PENDING
    requires |ActivePending(m, d.borrower)| < MAX_ACTIVE_PENDING
    ensures Capped(With(m, id, d))
  {
    var next := With(m, id, d);
    forall item, day ensures |Competing(next, item, day, day)| <= MAX_COMPETING_PENDING {
      var was := Competing(m, item, day, day);
      SubsetSize(Competing(next, item, day, day), was + {id});
      if Meets(d, item, day, day) {
        SubsetSize(was, Competing(m, d.item, d.start, d.end));
      } else {
        SubsetSize(Competing(next, item, day, day), was);
      }
    }
    forall borrower ensures |ActivePending(next, borrower)| <= MAX_ACTIVE_PENDING {
      var was := ActivePending(m, borrower);
      SubsetSize(ActivePending(next, borrower), was + {id});
      if borrower != d.borrower { SubsetSize(ActivePending(next, borrower), was); }
    }
  }

  /** A new request enters dates nobody reserves. */
  lemma BookClears(m: Market, id: Id, d: Deal)
    requires RequestsClear(m) && NoDoubleBooking(m) && id !in m.deals
    requires d.status == Pending && !ReservedBy(m, {}, d.item, d.start, d.end)
    ensures RequestsClear(With(m, id, d)) && NoDoubleBooking(With(m, id, d))
  {
    hide LivePending;
  }

  lemma BookKeeps(m: Market, id: Id, r: Request, listing: Option<Listing>, policy: Policy, blocked: bool, today: int)
    requires MarketOk(m) && id !in m.deals && BookTx(m, r, listing, policy, blocked, today).New?
    ensures MarketOk(With(m, id, BookTx(m, r, listing, policy, blocked, today).deal))
  {
    hide Inv, Capped, RequestsClear, NoDoubleBooking, NewDeal, NewTerms, ParsePeriod, Competing, ActivePending,
      ReservedBy, CalendarTaken;
    var d := BookTx(m, r, listing, policy, blocked, today).deal;
    NewDealOk(m, r, listing, policy, blocked, today);
    BookCaps(m, id, d);
    BookClears(m, id, d);
  }

  // ---------------------------------------------------------------- bulk writes

  /** `confirm` and `blockUser` write no operation and keep every booking's own invariant. */
  ghost predicate Bulk(m: Market, next: Market) {
    && next == m.(deals := next.deals) && next.deals.Keys == m.deals.Keys
    && forall b | b in m.deals ::
       Inv(next.deals[b]) && Evolves(m.deals[b], next.deals[b]) &&
       next.deals[b].ops == m.deals[b].ops
  }

  lemma BulkWrite(d: Deal, s: Step)
    requires Inv(d) && (s.Select? || s.Drop? || s.Block?)
    ensures Inv(Exec(d, s)) && Evolves(d, Exec(d, s)) && Exec(d, s).ops == d.ops
  {
    ExecKeeps(d, s);
    ExecEvolves(d, s);
  }

  lemma BulkKeeps(m: Market, next: Market)
    requires MarketOk(m) && Bulk(m, next)
    ensures DealsOk(next) && RequestsUnique(next) && LeasesFenced(next) && Capped(next)
  {
    hide Inv, Capped, Evolution.OpEvolves;
    CapsShrink(m, next);
  }

  lemma ConfirmIsBulk(m: Market, b: Id, lender: Id)
    requires MarketOk(m) && b in m.deals
    ensures Bulk(m, m.(deals := ConfirmedDeals(m, b, lender)))
  {
    hide Inv, Exec, Evolves, RequestsUnique, RequestsClear, NoDoubleBooking, Capped, LeasesFenced;
    var next := ConfirmedDeals(m, b, lender);
    forall x | x in m.deals
      ensures Inv(next[x]) && Evolves(m.deals[x], next[x]) && next[x].ops == m.deals[x].ops
    {
      BulkWrite(m.deals[x], Select(lender));
      BulkWrite(m.deals[x], Drop(lender));
      Unmoved(m.deals[x]);
    }
  }

  lemma Unmoved(d: Deal)
    ensures Evolves(d, d)
  {
  }

  lemma BlockKeeps(m: Market, blocker: Id, blocked: Id)
    requires MarketOk(m)
    ensures MarketOk(m.(deals := BlockedDeals(m, blocker, blocked)))
  {
    hide Inv, Exec, RequestsUnique, RequestsClear, NoDoubleBooking, Capped, LeasesFenced;
    var next := m.(deals := BlockedDeals(m, blocker, blocked));
    forall x | x in m.deals
      ensures Inv(next.deals[x]) && Evolves(m.deals[x], next.deals[x]) && next.deals[x].ops == m.deals[x].ops
      ensures Reserving(next.deals[x].status) ==> Reserving(m.deals[x].status)
    {
      BulkWrite(m.deals[x], Block(blocker));
      Unmoved(m.deals[x]);
      if m.deals[x].status == Pending { NotSelected(m.deals[x], Block(blocker)); }
    }
    BulkKeeps(m, next);
    QuieterKeeps(m, next);
  }

  /** What a selection does to any booking `x`. */
  lemma AfterSelection(m: Market, b: Id, lender: Id, x: Id)
    requires b in m.deals && x in m.deals
    ensures var d, next := m.deals[x], ConfirmedDeals(m, b, lender)[x];
            SameRequest(d, next) &&
            (Reserving(next.status) ==> x == b || Reserving(d.status)) &&
            (LivePending(next, m.clock) ==> LivePending(d, m.clock) && (x == b || !Clash(d, m.deals[b])))
    ensures LivePending(m.deals[b], m.clock) ==> ConfirmedDeals(m, b, lender)[b].status == Confirmed
  {
    if LivePending(m.deals[x], m.clock) && x != b && Clash(m.deals[x], m.deals[b]) { assert x in Competitors(m, b); }
  }

  /** A selection takes free dates and cancels every live request that wanted them. */
  lemma ConfirmClears(m: Market, b: Id, lender: Id)
    requires MarketOk(m) && ConfirmRefusal(m, b, lender).None?
    ensures var next := m.(deals := ConfirmedDeals(m, b, lender)); RequestsClear(next) && NoDoubleBooking(next)
  {
    hide Inv, Capped, LeasesFenced, RequestsUnique, Exec;
    var d := m.deals[b];
    assert !ReservedBy(m, {b}, d.item, d.start, d.end);
    assert !CalendarTaken(m, d.item, d.start, d.end);
    forall x | x in m.deals { AfterSelection(m, b, lender, x); }
  }

  lemma ConfirmKeeps(m: Market, b: Id, lender: Id)
    requires MarketOk(m) && ConfirmRefusal(m, b, lender).None?
    ensures MarketOk(m.(deals := ConfirmedDeals(m, b, lender)))
  {
    ConfirmIsBulk(m, b, lender);
    BulkKeeps(m, m.(deals := ConfirmedDeals(m, b, lender)));
    ConfirmClears(m, b, lender);
  }

  // ---------------------------------------------------------------- the calendar

  lemma AddPeriodKeeps(m: Market, id: Id, item: Id, start: int, end: int)
    requires MarketOk(m) && id !in m.periods && !ReservedBy(m, {}, item, start, end)
    ensures MarketOk(m.(periods := m.periods[id := Period(item, start, end)]))
  {
    hide Inv, Capped;
    CapsShrink(m, m.(periods := m.periods[id := Period(item, start, end)]));
  }

  lemma CalendarShrinks(m: Market, next: Market)
    requires MarketOk(m) && next == m.(periods := next.periods, clock := next.clock) && next.clock >= m.clock
    requires next.periods.Keys <= m.periods.Keys && forall p | p in next.periods :: next.periods[p] == m.periods[p]
    ensures MarketOk(next)
  {
    hide Inv;
    QuieterKeeps(m, next);
  }

  // ---------------------------------------------------------------- all commands

  lemma NextKeeps(m: Market, c: Command)
    requires MarketOk(m)
    ensures MarketOk(Next(m, c))
  {
    hide MarketOk, Exec, BookTx, ConfirmedDeals, BlockedDeals, ConfirmRefusal, ParsePeriod;
    match c
    case Tick(to) => if to >= m.clock { CalendarShrinks(m, Next(m, c)); }
    case Book(id, r, listing, policy, blocked, today) =>
      if id !in m.deals && BookTx(m, r, listing, policy, blocked, today).New? {
        BookKeeps(m, id, r, listing, policy, blocked, today);
      }
    case ConfirmBooking(b, lender) => if ConfirmRefusal(m, b, lender).None? { ConfirmKeeps(m, b, lender); }
    case BlockUser(blocker, blocked) => BlockKeeps(m, blocker, blocked);
    case AddPeriod(id, owned, item, start, end, today) => if Next(m, c) != m {
      AddPeriodKeeps(m, id, item, start, end);
    }
    case RemovePeriod(id, owned, item) => if Next(m, c) != m { CalendarShrinks(m, Next(m, c)); }
    case On(b, s) => if b in m.deals && Single(s) { SingleKeeps(m, b, s); }
    case TakeLease(b, i, now) => if b in m.deals && Claimable(m.deals[b], i, now) { LeaseKeeps(m, b, i, now); }
    case ReportOutcome(k, outcome) => if k < |m.claims| { ReportKeeps(m, k, outcome); }
  }

  /** Every command of every run keeps every invariant. */
  lemma {:induction false} RunKeeps(m: Market, cs: seq<Command>)
    requires MarketOk(m)
    ensures MarketOk(Run(m, cs))
    decreases |cs|
  {
    if cs != [] {
      NextKeeps(m, cs[0]);
      RunKeeps(Next(m, cs[0]), cs[1..]);
    }
  }

  lemma StartOk(clock: Time)
    ensures MarketOk(Start(clock))
  {
    assert forall item, day :: Competing(Start(clock), item, day, day) == {};
    assert forall borrower :: ActivePending(Start(clock), borrower) == {};
  }

  // ---------------------------------------------------------------- what runs never take back

  ghost predicate MarketEvolves(m: Market, next: Market) {
    && m.deals.Keys <= next.deals.Keys && m.claims <= next.claims && m.clock <= next.clock
    && forall b | b in m.deals :: Evolves(m.deals[b], next.deals[b])
  }

  lemma NextEvolves(m: Market, c: Command)
    requires MarketOk(m)
    ensures MarketEvolves(m, Next(m, c))
  {
    hide Inv, Exec, Evolves, RequestsUnique, RequestsClear, NoDoubleBooking, Capped, BookTx, ConfirmRefusal,
      ParsePeriod, LeasesFenced;
    forall d | Inv(d) ensures Evolves(d, d) { Unmoved(d); }
    match c
    case ConfirmBooking(b, lender) => if ConfirmRefusal(m, b, lender).None? {
      Refusal(m, b, lender);
      ConfirmIsBulk(m, b, lender);
    }
    case BlockUser(blocker, blocked) =>
      forall x | x in m.deals ensures Evolves(m.deals[x], Exec(m.deals[x], Block(blocker))) {
        BulkWrite(m.deals[x], Block(blocker));
      }
    case On(b, s) => if b in m.deals { ExecEvolves(m.deals[b], s); }
    case TakeLease(b, i, now) => if b in m.deals { ExecEvolves(m.deals[b], Lease(i, now)); }
    case ReportOutcome(k, outcome) =>
      if k < |m.claims| && m.claims[k].booking in m.deals {
        var c := m.claims[k];
        ExecEvolves(m.deals[c.booking], Report(c.i, c.token, c.attempts, outcome, c.now));
      }
    case _ =>
  }

  lemma Refusal(m: Market, b: Id, lender: Id)
    requires ConfirmRefusal(m, b, lender).None?
    ensures b in m.deals
  {
  }

  lemma MarketEvolvesTransitive(a: Market, b: Market, c: Market)
    requires MarketEvolves(a, b) && MarketEvolves(b, c)
    ensures MarketEvolves(a, c)
  {
    hide Evolves;
    forall x | x in a.deals ensures Evolves(a.deals[x], c.deals[x]) {
      EvolvesTransitive(a.deals[x], b.deals[x], c.deals[x]);
    }
  }

  lemma {:induction false} RunEvolves(m: Market, cs: seq<Command>)
    requires MarketOk(m)
    ensures MarketEvolves(m, Run(m, cs))
    decreases |cs|
  {
    if cs == [] {
      forall b | b in m.deals ensures Evolves(m.deals[b], m.deals[b]) { Unmoved(m.deals[b]); }
    } else {
      NextKeeps(m, cs[0]);
      NextEvolves(m, cs[0]);
      RunEvolves(Next(m, cs[0]), cs[1..]);
      MarketEvolvesTransitive(m, Next(m, cs[0]), Run(m, cs));
    }
  }

  /** The step a command takes on one booking, if it takes any. */
  lemma StepTaken(m: Market, c: Command, b: Id) returns (s: Option<Step>)
    requires b in m.deals
    ensures b in Next(m, c).deals
    ensures Next(m, c).deals[b] == if s.Some? then Exec(m.deals[b], s.value) else m.deals[b]
    ensures s.Some? && s.value.Pay? ==> c == On(b, s.value) && !RollsBack(m, b, s.value)
    ensures s.Some? && s.value.Report? ==>
              c.ReportOutcome? && c.k < |m.claims| && m.claims[c.k].booking == b && m.claims[c.k].i == s.value.i &&
              c.outcome == s.value.outcome && !(c.outcome.Success? && OperationIdTaken(m, c.outcome.providerId))
  {
    hide Exec, BookTx, ConfirmRefusal, ParsePeriod;
    s := None;
    if Next(m, c).deals[b] != m.deals[b] {
      match c
      case ConfirmBooking(x, lender) => s := Some(if b == x then Select(lender) else Drop(lender));
      case BlockUser(blocker, _) => s := Some(Block(blocker));
      case On(_, step) => s := Some(step);
      case TakeLease(_, i, now) => s := Some(Lease(i, now));
      case ReportOutcome(k, outcome) =>
        var claim := m.claims[k];
        s := Some(Report(claim.i, claim.token, claim.attempts, outcome, claim.now));
    }
  }

  lemma {:induction false} RunConcat(m: Market, cs: seq<Command>, more: seq<Command>)
    ensures Run(m, cs + more) == Run(Run(m, cs), more)
    decreases |cs|
  {
    if cs == [] {
      assert cs + more == more;
    } else {
      assert (cs + more)[1..] == cs[1..] + more;
      RunConcat(Next(m, cs[0]), cs[1..], more);
    }
  }

  /** Runs grow at the end, too. */
  lemma {:induction false} RunAppend(m: Market, cs: seq<Command>, c: Command)
    ensures Run(m, cs + [c]) == Next(Run(m, cs), c)
    decreases |cs|
  {
    if cs == [] {
      assert [c][1..] == [];
    } else {
      assert (cs + [c])[1..] == cs[1..] + [c];
      RunAppend(Next(m, cs[0]), cs[1..], c);
    }
  }
}
