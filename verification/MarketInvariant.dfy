/** What every command keeps across all bookings, in every run. */
module MarketInvariant {
  import opened Domain
  import opened Deals
  import opened DealInvariant
  import DealSteps
  import opened Evolution
  import opened Price
  import opened Market

  ghost predicate DealsOk(m: Market) {
    forall b | b in m.deals :: Inv(m.deals[b]) && m.deals[b].start <= m.deals[b].end < m.deals[b].start + MAX_DAYS
  }

  /** A request id of a borrower names one booking. */
  ghost predicate RequestsUnique(m: Market) {
    forall a, b | a in m.deals && b in m.deals &&
                  m.deals[a].borrower == m.deals[b].borrower && m.deals[a].request == m.deals[b].request :: a == b
  }

  predicate Clash(d: Deal, other: Deal) {
    Meets(d, other.item, other.start, other.end)
  }

  /** No live request overlaps a booking that holds the dates. */
  ghost predicate RequestsClear(m: Market) {
    forall p, r | p in m.deals && r in m.deals && LivePending(m.deals[p], m.clock) && Reserving(m.deals[r].status) ::
      !Clash(m.deals[p], m.deals[r])
  }

  /** Bookings that hold dates of one item are disjoint from each other and from its unavailable periods. */
  ghost predicate NoDoubleBooking(m: Market) {
    && (forall a, b | a in m.deals && b in m.deals && a != b && Reserving(m.deals[a].status) &&
       Reserving(m.deals[b].status) ::
          !Clash(m.deals[a], m.deals[b]))
    && (forall a, p | a in m.deals && p in m.periods && Reserving(m.deals[a].status) ::
          !Meets(m.deals[a], m.periods[p].item, m.periods[p].start, m.periods[p].end))
  }

  /** Every day of an item has at most twenty live requests, every borrower at most five. */
  ghost predicate Capped(m: Market) {
    && (forall item, day :: |Competing(m, item, day, day)| <= MAX_COMPETING_PENDING)
    && (forall borrower :: |ActivePending(m, borrower)| <= MAX_ACTIVE_PENDING)
  }

  predicate SameOp(c: Claim, other: Claim) {
    c.booking == other.booking && c.i == other.i
  }

  /** A lease on record is the current one, or older than anything the row accepts from now on. */
  predicate Fenced(op: Operation, c: Claim) {
    op.status == Waiting ==>
      match op.processingUntil
      case Some(t) => c.token <= t
      case None => c.token < op.nextAttemptAt + LEASE_MS
  }

  ghost predicate LeasesFenced(m: Market) {
    && (forall k | 0 <= k < |m.claims| ::
          var c := m.claims[k];
          c.booking in m.deals && c.i < |m.deals[c.booking].ops| && c.token == c.now + LEASE_MS &&
          Fenced(m.deals[c.booking].ops[c.i], c))
    && (forall j, k | 0 <= j < k < |m.claims| && SameOp(m.claims[j], m.claims[k]) ::
       m.claims[j].token < m.claims[k].token)
  }

  ghost predicate MarketOk(m: Market) {
    DealsOk(m) && RequestsUnique(m) && RequestsClear(m) && NoDoubleBooking(m) && Capped(m) && LeasesFenced(m)
  }

  // ---------------------------------------------------------------- changes that reserve nothing new

  /** Every booking stays what it was asked for, and none starts waiting or reserving. */
  ghost predicate Quieter(m: Market, next: Market) {
    && next.deals.Keys == m.deals.Keys && next.clock >= m.clock
    && forall b | b in m.deals ::
         SameRequest(m.deals[b], next.deals[b]) &&
         (next.deals[b].status == Pending ==>
             m.deals[b].status == Pending &&
             next.deals[b].expiresAt == m.deals[b].expiresAt) &&
         (Reserving(next.deals[b].status) ==> Reserving(m.deals[b].status))
  }

  lemma SubsetSize<T>(a: set<T>, b: set<T>)
    requires a <= b
    ensures |a| <= |b|
  {
    assert b == a + (b - a);
  }

  lemma CapsShrink(m: Market, next: Market)
    requires next.deals.Keys == m.deals.Keys && next.clock >= m.clock && Capped(m)
    requires forall b | b in m.deals ::
               SameRequest(m.deals[b], next.deals[b]) && (LivePending(next.deals[b], next.clock) ==>
                   LivePending(m.deals[b], m.clock))
    ensures Capped(next)
  {
    forall item, day ensures |Competing(next, item, day, day)| <= MAX_COMPETING_PENDING {
      SubsetSize(Competing(next, item, day, day), Competing(m, item, day, day));
    }
    forall borrower ensures |ActivePending(next, borrower)| <= MAX_ACTIVE_PENDING {
      SubsetSize(ActivePending(next, borrower), ActivePending(m, borrower));
    }
  }

  lemma QuieterKeeps(m: Market, next: Market)
    requires Quieter(m, next) && RequestsUnique(m) && RequestsClear(m) && NoDoubleBooking(m) && Capped(m)
    requires next.periods.Keys <= m.periods.Keys && forall p | p in next.periods :: next.periods[p] == m.periods[p]
    ensures RequestsUnique(next) && RequestsClear(next) && NoDoubleBooking(next) && Capped(next)
  {
    CapsShrink(m, next);
  }

  /** Outside a selection no pending request starts to reserve dates. */
  lemma NotSelected(d: Deal, s: Step)
    requires !s.Select? && d.status == Pending
    ensures Exec(d, s).status == Pending || Exec(d, s).status == Cancelled
  {
    hide FindKey, HasRetry, HasLeg, LegPaid, RetryDelay;
  }

  /** Only leases and reports write to operations that exist; every other step appends. */
  lemma OpsAppended(d: Deal, s: Step)
    requires Inv(d) && !s.Lease? && !s.Report?
    ensures d.ops <= Exec(d, s).ops
  {
    hide Inv, FindKey, HasRetry, HasLeg;
    if s.Finish? { DealSteps.SettledTriggerIdle(d, s.now); }
  }

  // ---------------------------------------------------------------- one command at a time

  lemma StepKeeps(m: Market, b: Id, s: Step)
    requires MarketOk(m) && b in m.deals && !s.Select?
    ensures var next := With(m, b, Exec(m.deals[b], s));
            DealsOk(next) && RequestsUnique(next) && RequestsClear(next) && NoDoubleBooking(next) && Capped(next)
  {
    hide Inv, Exec;
    ExecKeeps(m.deals[b], s);
    ExecEvolves(m.deals[b], s);
    if m.deals[b].status == Pending { NotSelected(m.deals[b], s); }
    QuieterKeeps(m, With(m, b, Exec(m.deals[b], s)));
  }

  lemma SingleKeeps(m: Market, b: Id, s: Step)
    requires MarketOk(m) && b in m.deals && Single(s)
    ensures MarketOk(With(m, b, Exec(m.deals[b], s)))
  {
    hide Inv, Exec;
    StepKeeps(m, b, s);
    OpsAppended(m.deals[b], s);
  }

  /** A granted lease ends later than every earlier one on the same operation. */
  lemma LeaseFences(m: Market, b: Id, i: nat, now: Time)
    requires LeasesFenced(m) && b in m.deals && Claimable(m.deals[b], i, now)
    ensures LeasesFenced(Next(m, TakeLease(b, i, now)))
  {
    var next := Next(m, TakeLease(b, i, now));
    forall k | 0 <= k < |next.claims|
      ensures var c := next.claims[k];
              c.booking in next.deals && c.i < |next.deals[c.booking].ops| && c.token == c.now + LEASE_MS &&
              Fenced(next.deals[c.booking].ops[c.i], c)
    {
      if k < |m.claims| { assert next.claims[k] == m.claims[k]; }
    }
    forall j, k | 0 <= j < k < |next.claims| && SameOp(next.claims[j], next.claims[k])
      ensures next.claims[j].token < next.claims[k].token
    {
      assert next.claims[j] == m.claims[j];
    }
  }

  lemma LeaseKeeps(m: Market, b: Id, i: nat, now: Time)
    requires MarketOk(m) && b in m.deals && Claimable(m.deals[b], i, now)
    ensures MarketOk(Next(m, TakeLease(b, i, now)))
  {
    hide Inv, Exec, Capped, LeasesFenced;
    var s := Lease(i, now);
    StepKeeps(m, b, s);
    LeaseFences(m, b, i, now);
    CapsShrink(With(m, b, Exec(m.deals[b], s)), Next(m, TakeLease(b, i, now)));
  }

  /** A report writes one operation, and hands a waiting one back only for a later moment. */
  lemma ReportWrites(d: Deal, s: Step)
    requires Inv(d) && s.Report?
    ensures var next := Exec(d, s);
            |next.ops| == |d.ops| &&
            forall j | 0 <= j < |d.ops| ::
              next.ops[j] == d.ops[j] ||
              (j == s.i && (next.ops[j].status != Waiting ||
                 (d.ops[j].status == Waiting && d.ops[j].processingUntil == Some(s.token) &&
                  next.ops[j].processingUntil.None? && next.ops[j].nextAttemptAt >= s.now + INITIAL_RETRY_MS)))
  {
    hide Inv, Settling, CompleteTx, LegPaid;
    if s.i < |d.ops| && d.deposit.Some? && d.ops[s.i].status == Waiting && d.ops[s.i].processingUntil == Some(s.token) {
      if s.outcome.Success? { DealSteps.SuccessKeeps(d, s.i, s.token, s.attempts, s.outcome.providerId, s.now); }
    }
  }

  lemma ReportFences(m: Market, k: nat, outcome: ProviderResult)
    requires MarketOk(m) && k < |m.claims|
    ensures LeasesFenced(Next(m, ReportOutcome(k, outcome)))
  {
    hide Inv, Exec, RequestsUnique, RequestsClear, NoDoubleBooking, Capped;
    var c := m.claims[k];
    ReportWrites(m.deals[c.booking], Report(c.i, c.token, c.attempts, outcome, c.now));
  }

  lemma ReportKeeps(m: Market, k: nat, outcome: ProviderResult)
    requires MarketOk(m) && k < |m.claims|
    ensures MarketOk(Next(m, ReportOutcome(k, outcome)))
  {
    hide Inv, Exec, LeasesFenced, Capped;
    var c := m.claims[k];
    ClaimsKnown(m);
    StepKeeps(m, c.booking, Report(c.i, c.token, c.attempts, outcome, c.now));
    ReportFences(m, k, outcome);
  }

  lemma ClaimsKnown(m: Market)
    requires LeasesFenced(m)
    ensures forall k | 0 <= k < |m.claims| :: m.claims[k].booking in m.deals
  {
  }
}
