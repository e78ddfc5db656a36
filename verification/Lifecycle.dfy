/** The main results about statuses, dates and repeated calls, for every state any run reaches. */
module Lifecycle {
  import opened Domain
  import opened Deals
  import opened DealInvariant
  import opened DealSteps
  import opened Evolution
  import opened Price
  import opened Market
  import opened MarketInvariant
  import opened MarketRuns
  import opened Settlement

  // ---------------------------------------------------------------- statuses side by side

  /** Booking, deposit, payment and dispute statuses that may stand together. */
  lemma JointStatus(m: Market, b: Id, d: Deal)
    requires Row(m, b, d)
    ensures d.status == Returned ==> DepositIs(d, {Held, Disputed})
    ensures d.status == Completed && d.deposit.Some? ==> DepositIs(d, {Resolving, Resolved})
    ensures d.status == Completed ==> d.dispute.None? || d.dispute.value.status == Decided
    ensures d.dispute.Some? && d.dispute.value.status == Open <==> DepositIs(d, {Disputed})
    ensures DepositIs(d, {Held}) ==>
              d.payment.Some? && d.payment.value.status == PaymentSucceeded &&
                  d.payment.value.amount == d.terms.totalMinor
    ensures d.status == Pending || DepositIs(d, {Unpaid, Voided}) ==> d.payment.None?
  {
    hide Row, Settling, ActsOk, HistoryOk;
    RowOk(m, b, d);
  }

  /**
   * Refund before handover, automatic refund and dispute decision exclude each other: every first operation is on
   * the one path the row shows.
   */
  lemma OneSettlementPath(m: Market, b: Id, d: Deal, i: nat)
    requires Row(m, b, d) && 1 <= i < |d.ops| && d.ops[i].retryOf.None?
    ensures if d.dispute.Some? then d.ops[i].key.Resolution?
            else d.ops[i].key == (if d.status == Cancelled then PreHandoverRefund else AutoRefund) && |d.ops| == 2
    ensures forall j | 1 <= j < |d.ops| && d.ops[j].retryOf.None? && d.ops[j].kind == d.ops[i].kind :: j == i
  {
    hide Row, StatusOk, ActsOk, HistoryOk, TermsOk;
    RowOk(m, b, d);
  }

  // ---------------------------------------------------------------- completion and settlement

  predicate SettledRow(d: Deal) {
    d.deposit.Some? ==> FullySettled(d.deposit.value)
  }

  /** One step completes a booking with its deposit settled exactly when its terms ask for no deposit. */
  lemma StepCompletes(d: Deal, s: Step)
    requires Inv(d) && d.status != Completed && Exec(d, s).status == Completed
    ensures SettledRow(Exec(d, s)) <==> d.terms.depositMinor == 0
  {
    hide Inv, Exec;
    if s.SignAct? { SignCompletes(d, s); }
    else if s.Decide? || s.CloseWindow? { SchedulingCompletes(d, s); }
    else if s.Report? { ReportCompletesNothing(d, s); }
    else { OthersCompleteNothing(d, s); }
  }

  lemma SignCompletes(d: Deal, s: Step)
    requires Inv(d) && s.SignAct? && d.status != Completed && Exec(d, s).status == Completed
    ensures SettledRow(Exec(d, s)) && d.terms.depositMinor == 0
  {
    hide Settling, ActsOk, HistoryOk;
  }

  lemma SchedulingCompletes(d: Deal, s: Step)
    requires Inv(d) && (s.Decide? || s.CloseWindow?) && d.status != Completed && Exec(d, s).status == Completed
    ensures !SettledRow(Exec(d, s)) && d.terms.depositMinor > 0
  {
    hide Settling, ActsOk, HistoryOk, FindKey, HasLeg, LegOperation;
  }

  lemma OthersCompleteNothing(d: Deal, s: Step)
    requires Inv(d) && !s.SignAct? && !s.Decide? && !s.CloseWindow? && !s.Report? && d.status != Completed
    ensures Exec(d, s).status != Completed
  {
    hide MoneyOk, ActsOk, HistoryOk, FindKey, HasRetry;
  }

  lemma ReportCompletesNothing(d: Deal, s: Step)
    requires Inv(d) && s.Report?
    ensures Exec(d, s).status == d.status
  {
    hide Inv, Settling, CompleteTx, LegPaid, RetryDelay;
    if s.i < |d.ops| && d.deposit.Some? && d.ops[s.i].status == Waiting && d.ops[s.i].processingUntil == Some(s.token) {
      if s.outcome.Success? { SuccessKeeps(d, s.i, s.token, s.attempts, s.outcome.providerId, s.now); }
    }
  }

  /**
   * A command that completes a booking leaves its deposit settled exactly when the terms ask for no
   * deposit: with a deposit every completion comes before the settlement, without one there is nothing to settle.
   */
  lemma CompletionSettledIff(m: Market, c: Command, b: Id, d: Deal)
    requires Row(m, b, d) && d.status != Completed && b in Next(m, c).deals && Next(m, c).deals[b].status == Completed
    ensures SettledRow(Next(m, c).deals[b]) <==> d.terms.depositMinor == 0
  {
    var s := StepTaken(m, c, b);
    hide Row, Inv, Exec, SettledRow;
    RowOk(m, b, d);
    StepCompletes(d, s.value);
  }

  // ---------------------------------------------------------------- tables, history, acts

  /** Every command of a run writes deposit and dispute statuses the tables allow, and only extends histories. */
  lemma StepsFollowTables(m: Market, c: Command, b: Id)
    requires Reachable(m) && b in m.deals
    ensures b in Next(m, c).deals && TablesAllow(m.deals[b], Next(m, c).deals[b])
    ensures m.deals[b].history <= Next(m, c).deals[b].history
  {
    hide Reachable, Inv, Next, Exec, Evolves, TablesAllow;
    var d := m.deals[b];
    RowOk(m, b, d);
    var s := StepTaken(m, c, b);
    TablesAllowStutter(d);
    if s.Some? {
      ExecEvolves(d, s.value);
      HistoryGrows(d, Next(m, c).deals[b]);
    }
  }

  lemma TablesAllowStutter(d: Deal)
    ensures TablesAllow(d, d)
  {
  }

  lemma HistoryGrows(d: Deal, next: Deal)
    requires Evolves(d, next)
    ensures d.history <= next.history
  {
  }

  /** The history is one path of the booking contract, at most five entries long, to the current status. */
  lemma HistoryIsPath(m: Market, b: Id, d: Deal, n: nat)
    requires Row(m, b, d)
    ensures 1 <= |d.history| <= 5 && d.history[0].before.None? && d.history[|d.history| - 1].after == d.status
    ensures 1 <= n < |d.history| ==>
              d.history[n].before == Some(d.history[n - 1].after) &&
                  BookingMay(d.history[n - 1].after, d.history[n].after)
  {
    hide Row, MoneyOk, StatusOk, ActsOk, TermsOk;
    RowOk(m, b, d);
    HistoryBound(d);
  }

  /** A thing is out only after both sides signed its handover, and back only after both signed its return. */
  lemma ActsSigned(m: Market, b: Id, d: Deal)
    requires Row(m, b, d)
    ensures d.status == Active || d.status == Returned || d.status == Completed ==>
              Handover in d.acts && d.acts[Handover].author == d.lender &&
                  d.acts[Handover].confirmedBy == Some(d.borrower)
    ensures d.status == Returned || d.status == Completed ==>
              Return in d.acts && d.acts[Return].author == d.borrower && d.acts[Return].confirmedBy == Some(d.lender)
    ensures d.borrower != d.lender
  {
    hide Row, MoneyOk, StatusOk, HistoryOk, TermsOk;
    RowOk(m, b, d);
    assert StageAuthor(d, Handover) == d.lender && StageAuthor(d, Return) == d.borrower;
  }

  // ---------------------------------------------------------------- dates

  /** Two bookings that hold dates of one item never share a day, nor a day the owner closed. */
  lemma NoSharedDay(m: Market, a: Id, b: Id, p: Id, day: int)
    requires Reachable(m) && a in m.deals && Reserving(m.deals[a].status) && m.deals[a].start <= day <= m.deals[a].end
    ensures b in m.deals && b != a && Reserving(m.deals[b].status) && m.deals[b].item == m.deals[a].item ==>
              !(m.deals[b].start <= day <= m.deals[b].end)
    ensures p in m.periods && m.periods[p].item == m.deals[a].item ==> !(m.periods[p].start <= day <= m.periods[p].end)
  {
    hide Reachable, Inv, RequestsUnique, RequestsClear, Capped, LeasesFenced;
    ReachableOk(m);
  }

  /** No live request asks for a day that a booking of the item holds. */
  lemma RequestsAvoidReserved(m: Market, p: Id, r: Id, day: int)
    requires Reachable(m) && p in m.deals && r in m.deals && m.deals[p].item == m.deals[r].item
    requires LivePending(m.deals[p], m.clock) && Reserving(m.deals[r].status) &&
             m.deals[p].start <= day <= m.deals[p].end
    ensures !(m.deals[r].start <= day <= m.deals[r].end)
  {
    hide Reachable, Inv, RequestsUnique, NoDoubleBooking, Capped, LeasesFenced;
    ReachableOk(m);
  }

  /** The conflict check of `confirm` itself never fires: a live request never overlaps reserved dates. */
  lemma ConfirmNeverConflicts(m: Market, b: Id, lender: Id)
    requires Reachable(m)
    ensures ConfirmRefusal(m, b, lender) != Some(BookingConflict)
  {
    hide Reachable, Inv, RequestsUnique, NoDoubleBooking, Capped, LeasesFenced;
    ReachableOk(m);
  }

  /** Caps on live requests, although `create` counts only those that overlap the new one. */
  lemma PendingCaps(m: Market, item: Id, day: int, borrower: Id)
    requires Reachable(m)
    ensures |Competing(m, item, day, day)| <= 20 && |ActivePending(m, borrower)| <= 5
  {
    hide Reachable, Inv, RequestsUnique, NoDoubleBooking, RequestsClear, LeasesFenced;
    ReachableOk(m);
  }

  /** Competitors whose dates begin by `last`. */
  function CompetitorsUntil(m: Market, b: Id, last: int): set<Id>
    requires b in m.deals
  {
    Competing(m, m.deals[b].item, m.deals[b].start, last) - {b}
  }

  /** Each further day of the booking brings in at most nineteen competitors. */
  lemma {:induction false} CompetitorsPerDay(m: Market, b: Id, last: int)
    requires Reachable(m) && b in m.deals && LivePending(m.deals[b], m.clock)
    requires m.deals[b].start <= last <= m.deals[b].end
    ensures |CompetitorsUntil(m, b, last)| <= 19 * (last - m.deals[b].start + 1)
    decreases last - m.deals[b].start
  {
    hide Reachable;
    var d := m.deals[b];
    var thatDay := Competing(m, d.item, last, last);
    PendingCaps(m, d.item, last, d.borrower);
    assert b in thatDay;
    assert |thatDay - {b}| <= 19;
    if last == d.start {
      assert CompetitorsUntil(m, b, last) == thatDay - {b};
    } else {
      CompetitorsPerDay(m, b, last - 1);
      var earlier := CompetitorsUntil(m, b, last - 1);
      DatesOrdered(m);
      SubsetSize(CompetitorsUntil(m, b, last), earlier + (thatDay - {b}));
      assert |earlier + (thatDay - {b})| <= |earlier| + |thatDay - {b}|;
    }
  }

  lemma DatesOrdered(m: Market)
    requires Reachable(m)
    ensures forall x | x in m.deals :: m.deals[x].start <= m.deals[x].end
  {
    hide Reachable, Inv, RequestsUnique, NoDoubleBooking, RequestsClear, Capped, LeasesFenced;
    ReachableOk(m);
  }

  /** Confirming a booking of some days cancels at most nineteen requests a day, and never more than 570. */
  lemma ConfirmCancelsFew(m: Market, b: Id, lender: Id)
    requires Reachable(m) && ConfirmRefusal(m, b, lender).None?
    ensures |Competitors(m, b)| <= 19 * (m.deals[b].end - m.deals[b].start + 1) <= 570
  {
    hide Reachable, Inv, RequestsUnique, NoDoubleBooking, RequestsClear, Capped, LeasesFenced;
    ReachableOk(m);
    CompetitorsPerDay(m, b, m.deals[b].end);
  }
}
