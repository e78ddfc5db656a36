/**
 * What each command does to a reachable row: exactly when it takes effect, and then every column it writes.
 * Where the services check more than they need to, the invariant says which checks are left.
 */
module Effects {
  import opened Domain
  import opened Deals
  import opened DealInvariant
  import opened Evolution
  import opened Market
  import opened MarketInvariant
  import opened MarketRuns
  import opened Price
  import opened Settlement
  import DealSteps
  import Journal

  /** The row of `b` after a command on it. */
  ghost function Now(m: Market, b: Id, s: Step): Deal
    requires b in m.deals
  {
    var next := Next(m, On(b, s));
    if b in next.deals then next.deals[b] else m.deals[b]
  }

  /** A command on a booking touches no other booking, no period and no lease. */
  lemma OnlyItsRow(m: Market, b: Id, s: Step)
    requires b in m.deals
    ensures Next(m, On(b, s)) == m.(deals := m.deals[b := Now(m, b, s)])
  {
    hide Exec, RollsBack;
    assert m.deals[b := m.deals[b]] == m.deals;
  }

  lemma NowIs(m: Market, b: Id, d: Deal, s: Step)
    requires Row(m, b, d) && Single(s) && !s.Pay?
    ensures b in m.deals && Inv(d) && Now(m, b, s) == Exec(d, s)
  {
    hide Exec, Inv, Reachable;
    RowOk(m, b, d);
  }

  lemma RowIn(m: Market, b: Id, d: Deal)
    requires Row(m, b, d)
    ensures b in m.deals && m.deals[b] == d
  {
  }

  function Queued(kind: OpKind, amount: nat, key: OpKey, retryOf: Option<nat>, at: Time): Operation {
    Operation(kind, amount, Waiting, key, retryOf, 0, at, None, None)
  }

  // ---------------------------------------------------------------- disputes

  /**
   * A disputed deposit is decided exactly when the policy is on, the command has a key, and two parts that are not
   * negative make up the deposit. The booking completes, and each part that is not zero is queued.
   */
  lemma DecideIff(
    m: Market, b: Id, d: Deal, admin: Id, fakePolicy: bool, decision: string, refund: int, release: int,
    command: string, now: Time)
    requires Row(m, b, d) && DepositIs(d, {Disputed})
    ensures b in m.deals && d.dispute.Some?
    ensures var next := Now(m, b, Decide(admin, fakePolicy, decision, refund, release, command, now));
            if fakePolicy && command != "" && refund >= 0 && release >= 0 && refund + release == d.deposit.value.amount
            then
              next == d.(
                status := Completed, deposit := Some(d.deposit.value.(status := Resolving)),
                dispute := Some(Dispute(d.dispute.value.openedBy, Decided, Some(admin), decision, refund, release)),
                ops := d.ops
                  + (if refund == 0 then [] else [Queued(RefundOp, refund, Resolution(command, RefundOp), None, now)])
                  + (if release == 0 then []
                     else [Queued(ReleaseOp, release, Resolution(command, ReleaseOp), None, now)]),
                history := d.history + [Entry(None, CompleteAfterDecision, Some(Returned), Completed)])
            else next == d
  {
    hide Row, Now, MoneyOk, ActsOk, HistoryOk, TermsOk, HasLeg;
    NowIs(m, b, d, Decide(admin, fakePolicy, decision, refund, release, command, now));
    assert d.status == Returned && d.dispute.Some? && d.dispute.value.status == Open;
    assert forall left: seq<Operation>, p: seq<Operation>, q: seq<Operation> :: left + (p + q) == left + p + q;
  }

  /**
   * A decided dispute is never decided again: the same administrator's same decision under the key its parts were
   * queued with is answered as done, and every other one is refused.
   */
  lemma DecideAgainIff(
    m: Market, b: Id, d: Deal, admin: Id, fakePolicy: bool, decision: string, refund: int, release: int,
    command: string, now: Time)
    requires Row(m, b, d) && d.dispute.Some? && d.dispute.value.status == Decided
    ensures b in m.deals && Now(m, b, Decide(admin, fakePolicy, decision, refund, release, command, now)) == d
    ensures ResolveTx(d, admin, fakePolicy, decision, refund, release, command, now).Commit? <==>
              fakePolicy && command != "" && d.dispute.value.resolvedBy == Some(admin) &&
              d.dispute.value.decision == decision && d.dispute.value.refund == refund &&
              d.dispute.value.release == release &&
              (refund > 0 ==> exists i | 0 <= i < |d.ops| :: d.ops[i].key == Resolution(command, RefundOp)) &&
              (release > 0 ==> exists i | 0 <= i < |d.ops| :: d.ops[i].key == Resolution(command, ReleaseOp))
  {
    hide Row, Now, ActsOk, HistoryOk, TermsOk, HasLeg, Settling;
    NowIs(m, b, d, Decide(admin, fakePolicy, decision, refund, release, command, now));
    DecidedAmount(d);
    if d.dispute.value.refund == refund { LegUnder(d, RefundOp, refund, command); }
    if d.dispute.value.release == release { LegUnder(d, ReleaseOp, release, command); }
  }

  lemma DecidedAmount(d: Deal)
    requires Inv(d) && d.dispute.Some? && d.dispute.value.status == Decided
    ensures d.deposit.Some? && d.dispute.value.refund + d.dispute.value.release == d.deposit.value.amount
  {
    hide ActsOk, HistoryOk, TermsOk, Journal.Chained;
  }

  /** A leg is found under the key it was queued with, whole. */
  lemma LegUnder(d: Deal, kind: OpKind, amount: nat, command: string)
    requires Inv(d) && d.dispute.Some? && d.dispute.value.status == Decided && d.deposit.Some?
    requires (kind == RefundOp || kind == ReleaseOp) && amount == LegAmount(d, kind)
    ensures HasLeg(d.ops, kind, amount, command) <==>
              (amount > 0 ==> exists i | 0 <= i < |d.ops| :: d.ops[i].key == Resolution(command, kind))
  {
    hide ActsOk, HistoryOk, TermsOk, StatusOk, FindKey, Journal.Chained, Balanced, HasKind, Journal.Credited,
      Journal.Outstanding;
    var found := FindKey(d.ops, Resolution(command, kind));
    if amount > 0 && found.Some? { WholeLeg(d, found.value, kind, command); }
  }

  lemma WholeLeg(d: Deal, i: nat, kind: OpKind, command: string)
    requires Inv(d) && d.dispute.Some? && d.dispute.value.status == Decided && d.deposit.Some?
    requires (kind == RefundOp || kind == ReleaseOp) && i < |d.ops| && d.ops[i].key == Resolution(command, kind)
    ensures d.ops[i].kind == kind && d.ops[i].amount == LegAmount(d, kind)
  {
    hide ActsOk, HistoryOk, TermsOk, Balanced, HasKind;
    assert Settling(d) && i >= 1;
    assert d.ops[i].retryOf.None?;
  }

  /** Either party opens the one dispute of a returned booking, until its window ends. */
  lemma ComplainIff(m: Market, b: Id, d: Deal, actor: Id, now: Time)
    requires Row(m, b, d)
    ensures b in m.deals && (d.status == Returned ==> d.deposit.Some? && d.deposit.value.windowEndsAt.Some?)
    ensures var next := Now(m, b, Complain(actor, now));
            if d.status == Returned && (actor == d.borrower || actor == d.lender) && d.dispute.None? &&
               now < d.deposit.value.windowEndsAt.value
            then next == d.(deposit := Some(d.deposit.value.(status := Disputed)),
                            dispute := Some(Dispute(actor, Open, None, "", 0, 0)))
            else next == d
  {
    hide Row, Now, MoneyOk, ActsOk, HistoryOk, TermsOk;
    NowIs(m, b, d, Complain(actor, now));
  }

  /** An undisputed return is refunded in full from the end of its window on. */
  lemma CloseWindowIff(m: Market, b: Id, d: Deal, now: Time)
    requires Row(m, b, d)
    ensures b in m.deals && (d.status == Returned ==> d.deposit.Some? && d.deposit.value.windowEndsAt.Some?)
    ensures var next := Now(m, b, CloseWindow(now));
            if d.status == Returned && d.dispute.None? && d.deposit.value.windowEndsAt.value <= now
            then next == d.(
                   status := Completed, deposit := Some(d.deposit.value.(status := Resolving)),
                   ops := d.ops + [Queued(RefundOp, d.deposit.value.amount, AutoRefund, None, now)],
                   history := d.history + [Entry(None, CompleteAfterWindow, Some(Returned), Completed)])
            else next == d
  {
    hide Row, Now, MoneyOk, ActsOk, HistoryOk, TermsOk, FindKey;
    NowIs(m, b, d, CloseWindow(now));
    if d.deposit.Some? && d.deposit.value.status == Held { OnlyHoldKey(d); }
  }

  lemma OnlyHoldKey(d: Deal)
    requires Inv(d) && DepositIs(d, {Held, Disputed})
    ensures forall i | 0 <= i < |d.ops| :: d.ops[i].key == HoldKey
  {
    hide Settling, StatusOk, ActsOk, HistoryOk, TermsOk;
  }

  /** At every moment after the return exactly one of the two is possible: to complain, or to refund. */
  lemma WindowSplits(m: Market, b: Id, d: Deal, actor: Id, now: Time)
    requires Row(m, b, d) && d.status == Returned && d.dispute.None? && (actor == d.borrower || actor == d.lender)
    ensures Now(m, b, Complain(actor, now)) != d <==> Now(m, b, CloseWindow(now)) == d
  {
    hide Row, Now;
    ComplainIff(m, b, d, actor, now);
    CloseWindowIff(m, b, d, now);
  }

  // ---------------------------------------------------------------- cancellation

  /**
   * A party cancels a live request, or a confirmed booking of the fake payment while its policy is on. A held
   * deposit goes back whole, an unpaid one is voided.
   */
  lemma CancelIff(m: Market, b: Id, d: Deal, actor: Id, fakePolicy: bool, now: Time)
    requires Row(m, b, d)
    ensures b in m.deals && (d.status == Pending ==> d.expiresAt.Some?)
    ensures var next := Now(m, b, CancelBy(actor, fakePolicy, now));
            var reason := if actor == d.borrower then BorrowerCancelled else LenderDeclined;
            if (actor == d.borrower || actor == d.lender) &&
               ((d.status == Pending && now < d.expiresAt.value) ||
                (d.status == Confirmed && d.terms.fake && fakePolicy))
            then
              var cancelled := d.(
                status := Cancelled, reason := Some(reason), expiresAt := None,
                history := d.history + [Entry(Some(actor), Cancel, Some(d.status), Cancelled)]);
              next ==
                if d.deposit.None? then cancelled
                else if d.deposit.value.status == Held
                then cancelled.(
                       deposit := Some(d.deposit.value.(status := Resolving)),
                       ops := d.ops + [Queued(RefundOp, d.deposit.value.amount, PreHandoverRefund, None, now)])
                else cancelled.(deposit := Some(d.deposit.value.(status := Voided)))
            else next == d
  {
    hide Row, Now, MoneyOk, ActsOk, HistoryOk, TermsOk;
    NowIs(m, b, d, CancelBy(actor, fakePolicy, now));
  }

  /** A request runs out at its expiry, and not before. */
  lemma ExpireIff(m: Market, b: Id, d: Deal, now: Time)
    requires Row(m, b, d)
    ensures b in m.deals && (d.status == Pending ==> d.expiresAt.Some?)
    ensures var next := Now(m, b, ExpireAt(now));
            if d.status == Pending && d.expiresAt.value <= now
            then next == d.(
                   status := Cancelled, reason := Some(PendingTimeout), expiresAt := None,
                   deposit := if d.deposit.None? then None else Some(d.deposit.value.(status := Voided)),
                   history := d.history + [Entry(None, Expire, Some(Pending), Cancelled)])
            else next == d
  {
    hide Row, Now, MoneyOk, ActsOk, HistoryOk, TermsOk;
    NowIs(m, b, d, ExpireAt(now));
  }

  // ---------------------------------------------------------------- payment

  /**
   * A checkout stores something exactly when it is the borrower's first of a confirmed booking with fake payment
   * and the provider charged it and holds the deposit, if there is one, under ids nobody has.
   */
  lemma PayIff(
    m: Market, b: Id, d: Deal, payer: Id, fakePolicy: bool, key: string, checkout: ProviderCall, hold: ProviderCall,
    now: Time)
    requires Row(m, b, d)
    ensures var next := Now(m, b, Pay(payer, fakePolicy, key, checkout, hold, now));
            if fakePolicy && key != "" && payer == d.borrower && d.status == Confirmed && d.terms.fake &&
               d.payment.None? && checkout.Answer? && checkout.result.Success? &&
               (d.deposit.Some? ==> hold.Answer? && hold.result.Success?) && !Collides(m, d, checkout, hold)
            then
              var paid := d.(payment := Some(
                Payment(d.borrower, d.terms.totalMinor, PaymentSucceeded, checkout.result.providerId)));
              next ==
                if d.deposit.None? then paid
                else paid.(
                       deposit := Some(d.deposit.value.(status := Held)),
                       ops := [Operation(HoldOp, d.deposit.value.amount, Succeeded, HoldKey, None, 1, now, None,
                                 Some(hold.result.providerId))])
            else next == d
  {
    hide Row, ActsOk, HistoryOk, Collides;
    RowOk(m, b, d);
    assert Now(m, b, Pay(payer, fakePolicy, key, checkout, hold, now)) ==
      if Collides(m, d, checkout, hold) then d
      else CheckoutTx(d, payer, fakePolicy, key, checkout, hold, now).After(d) by { RowIn(m, b, d); hide CheckoutTx; }
  }

  // ---------------------------------------------------------------- acts

  /** The side that hands the thing over writes the act of its stage, once. */
  lemma MakeActIff(
    m: Market, b: Id, d: Deal, actor: Id, stage: Stage, intent: Id, readiness: bool, verified: bool, usable: bool)
    requires Row(m, b, d)
    ensures var next := Now(m, b, MakeAct(actor, stage, intent, readiness, verified, usable));
            if stage !in d.acts && verified && usable &&
               (match stage
                case Handover => actor == d.lender && d.status == Confirmed && readiness
                case Return => actor == d.borrower && d.status == Active && !readiness)
            then next == d.(acts := d.acts[stage := Act(actor, intent, None)])
            else next == d
  {
    hide Row, Now, MoneyOk, ActsOk, HistoryOk, TermsOk, StatusOk;
    NowIs(m, b, d, MakeAct(actor, stage, intent, readiness, verified, usable));
  }

  /** The other side signs it: a handover once everything is paid, a return at any time. */
  lemma SignIff(m: Market, b: Id, d: Deal, actor: Id, stage: Stage, now: Time)
    requires Row(m, b, d)
    ensures b in m.deals && (d.deposit.Some? ==> d.terms.windowMs.Some?)
    ensures var next := Now(m, b, SignAct(actor, stage, now));
            if stage in d.acts && d.acts[stage].confirmedBy.None? &&
               (match stage
                case Handover => actor == d.borrower && d.status == Confirmed && (d.terms.fake ==> d.payment.Some?)
                case Return => actor == d.lender && d.status == Active)
            then
              next == d.(
                acts := d.acts[stage := d.acts[stage].(confirmedBy := Some(actor))],
                status := if stage == Handover then Active
                          else if d.deposit.None? then Completed else Returned,
                deposit := if stage == Handover || d.deposit.None? then d.deposit
                           else Some(d.deposit.value.(windowEndsAt := Some(now + d.terms.windowMs.value))),
                history := d.history +
                  (if stage == Handover then [Entry(Some(actor), ConfirmHandover, Some(Confirmed), Active)]
                   else [Entry(Some(actor), ConfirmReturn, Some(Active), Returned)] +
                        if d.deposit.None? then [Entry(None, CompleteAfterReturn, Some(Returned), Completed)] else []))
            else next == d
  {
    hide Row, Now, HistoryOk, Settling;
    NowIs(m, b, d, SignAct(actor, stage, now));
  }

  // ---------------------------------------------------------------- the worker and its retries

  /** An administrator repeats exactly a failed operation of a decided dispute that nobody repeated before. */
  lemma RepeatIff(m: Market, b: Id, d: Deal, i: nat, fakePolicy: bool, command: string, now: Time)
    requires Row(m, b, d)
    ensures b in m.deals
    ensures var next := Now(m, b, Repeat(i, fakePolicy, command, now));
            if fakePolicy && command != "" && d.dispute.Some? && i < |d.ops| && d.ops[i].status == Failed &&
               !exists j | 0 <= j < |d.ops| :: d.ops[j].retryOf == Some(i)
            then
              next == d.(ops := d.ops + [Queued(d.ops[i].kind, d.ops[i].amount, RetryOf(i, command), Some(i), now)])
            else next == d
  {
    hide Row, Now, ActsOk, HistoryOk, TermsOk;
    NowIs(m, b, d, Repeat(i, fakePolicy, command, now));
    if i < |d.ops| && d.ops[i].status == Failed && d.dispute.Some? { FailedIsLeg(d, i); }
    if i < |d.ops| { KeysOfRetries(d, i, command); }
  }

  lemma FailedIsLeg(d: Deal, i: nat)
    requires Inv(d) && i < |d.ops| && d.ops[i].status == Failed && d.dispute.Some?
    ensures HasRetry(d.ops, i) || Retryable(d, i)
  {
    hide StatusOk, ActsOk, HistoryOk, TermsOk, HasRetry, HasKind, Journal.Chained, Journal.Outstanding,
      Journal.Credited;
    if d.deposit.Some? && d.deposit.value.status == Resolved { ResolvedRetried(d, i); }
  }

  /** A failed operation of a resolved deposit was repeated. */
  lemma ResolvedRetried(d: Deal, i: nat)
    requires Inv(d) && i < |d.ops| && d.ops[i].status == Failed && d.deposit.Some? && d.deposit.value.status == Resolved
    ensures HasRetry(d.ops, i)
  {
    hide StatusOk, ActsOk, HistoryOk, TermsOk, Journal.Chained, HasRetry, HasKind;
    if !HasRetry(d.ops, i) { Journal.OpenWithin(d.ops, |d.ops|, i); }
  }

  lemma KeysOfRetries(d: Deal, i: nat, command: string)
    requires Inv(d) && i < |d.ops|
    ensures FindKey(d.ops, RetryOf(i, command)).Some? ==> HasRetry(d.ops, i)
  {
    hide StatusOk, ActsOk, HistoryOk, TermsOk;
  }

  /** A lease is granted exactly on a waiting operation that is due and that nobody holds any more. */
  lemma LeaseIff(m: Market, b: Id, i: nat, now: Time)
    requires Reachable(m)
    ensures var next := Next(m, TakeLease(b, i, now));
            if b in m.deals && i < |m.deals[b].ops| && m.deals[b].ops[i].status == Waiting &&
               m.deals[b].ops[i].nextAttemptAt <= now &&
               (m.deals[b].ops[i].processingUntil == None || m.deals[b].ops[i].processingUntil.value <= now)
            then
              var d := m.deals[b];
              var op := d.ops[i].(processingUntil := Some(now + 60000), attempts := d.ops[i].attempts + 1);
              next == m.(deals := m.deals[b := d.(ops := d.ops[i := op])],
                         claims := m.claims + [Claim(b, i, now + 60000, op.attempts, now)])
            else next == m
  {
    hide Reachable;
  }

  /**
   * A report under the current lease: a timeout gives the lease back and puts the operation off, a decline fails
   * it, and a success of a new id credits exactly it, and resolves the deposit when nothing is left.
   */
  lemma ReportIs(m: Market, k: nat, outcome: ProviderResult)
    requires Reachable(m) && k < |m.claims| && Current(m, k)
    requires outcome.Success? ==> !OperationIdTaken(m, outcome.providerId)
    ensures m.claims[k].booking in m.deals && m.claims[k].i < |m.deals[m.claims[k].booking].ops|
    ensures m.deals[m.claims[k].booking].deposit.Some?
    ensures var c := m.claims[k];
            Next(m, ReportOutcome(k, outcome)) == m.(deals := m.deals[
              c.booking := Reported(m.deals[c.booking], c.i, c.attempts, outcome, c.now)])
  {
    hide Reachable, Inv, OperationIdTaken, ApplyTx, Reported;
    ReachableOk(m);
    var c := m.claims[k];
    var d := m.deals[c.booking];
    assert Inv(d) by { hide RequestsUnique, RequestsClear, NoDoubleBooking, Capped, LeasesFenced; }
    ReportedIs(d, c.i, c.token, c.attempts, outcome, c.now);
  }

  function Reported(d: Deal, i: nat, attempts: nat, outcome: ProviderResult, now: Time): Deal
    requires i < |d.ops| && d.deposit.Some?
  {
    var dep, op := d.deposit.value, d.ops[i];
    match outcome
    case TimedOut =>
      d.(ops := d.ops[i := op.(processingUntil := None, nextAttemptAt := now + RetryDelay(attempts))])
    case Declined(_) => d.(ops := d.ops[i := op.(processingUntil := None, status := Failed)])
    case Success(id) => d.(
      ops := d.ops[i := op.(processingUntil := None, status := Succeeded, providerId := Some(id))],
      deposit := Some(dep.(
        refunded := dep.refunded + if op.kind == RefundOp then op.amount else 0,
        released := dep.released + if op.kind == ReleaseOp then op.amount else 0,
        status := if dep.refunded + dep.released + op.amount == dep.amount then Resolved else Resolving)))
  }

  lemma ReportedIs(d: Deal, i: nat, token: Time, attempts: nat, outcome: ProviderResult, now: Time)
    requires Inv(d) && i < |d.ops| && d.ops[i].status == Waiting && d.ops[i].processingUntil == Some(token)
    ensures d.deposit.Some? && ApplyTx(d, i, token, attempts, outcome, now).After(d) ==
                               Reported(d, i, attempts, outcome, now)
  {
    hide Inv, RetryDelay, DealSteps.PaidOut;
    WithinDeposit(d, i);
    if outcome.Success? {
      DealSteps.SuccessKeeps(d, i, token, attempts, outcome.providerId, now);
      hide ApplyTx, Reported;
      CreditedRow(d, i, attempts, outcome.providerId, now);
    }
  }

  lemma CreditedRow(d: Deal, i: nat, attempts: nat, id: string, now: Time)
    requires i < |d.ops| && d.deposit.Some? && (d.ops[i].kind == RefundOp || d.ops[i].kind == ReleaseOp)
    ensures DealSteps.PaidOut(d, i, id) == Reported(d, i, attempts, Success(id), now)
  {
  }

  /** Half a minute at first, doubled by every further attempt, and an hour at most. */
  lemma DelayDoubles(attempts: nat)
    ensures RetryDelay(0) == RetryDelay(1) == 30000
    ensures attempts >= 1 ==>
              RetryDelay(attempts + 1) ==
                if 2 * RetryDelay(attempts) < 3600000 then 2 * RetryDelay(attempts) else 3600000
  {
    assert Pow2(1) == 2 && Pow2(2) == 4 && Pow2(3) == 8 && Pow2(4) == 16 && Pow2(5) == 32 && Pow2(6) == 64;
    assert Pow2(7) == 128 && Pow2(8) == 256 && Pow2(9) == 512 && Pow2(10) == 1024;
  }

  // ---------------------------------------------------------------- commands across bookings

  predicate Overlapping(d: Deal, e: Deal) {
    d.item == e.item && d.start <= e.end && e.start <= d.end
  }

  /** `confirm`: the calendar is the only check left besides the request itself. */
  lemma ConfirmIff(m: Market, b: Id, lender: Id)
    requires Reachable(m)
    ensures b in m.deals && m.deals[b].status == Pending ==> m.deals[b].expiresAt.Some?
    ensures var next := Next(m, ConfirmBooking(b, lender));
            if b in m.deals && m.deals[b].lender == lender && m.deals[b].status == Pending &&
               m.clock < m.deals[b].expiresAt.value &&
               !exists p | p in m.periods :: m.periods[p].item == m.deals[b].item &&
                 m.periods[p].start <= m.deals[b].end && m.deals[b].start <= m.periods[p].end
            then
              && next == m.(deals := next.deals) && next.deals.Keys == m.deals.Keys
              && next.deals[b] == m.deals[b].(
                   status := Confirmed, expiresAt := None, reason := None,
                   history := m.deals[b].history + [Entry(Some(lender), Confirm, Some(Pending), Confirmed)])
              && forall x | x in m.deals && x != b :: next.deals[x] == Overtaken(m, b, lender, x)
            else next == m
  {
    hide Reachable, Inv, RequestsUnique, NoDoubleBooking, Capped, LeasesFenced, RequestsClear;
    Pendings(m, b);
    NeverConflicts(m, b);
    if b in m.deals {
      forall x | x in m.deals && x != b ensures ConfirmedDeals(m, b, lender)[x] == Overtaken(m, b, lender, x) {
        Overtakes(m, b, lender, x);
      }
    }
    hide Overtaken, Competitors;
  }

  lemma Overtakes(m: Market, b: Id, lender: Id, x: Id)
    requires b in m.deals && x in m.deals && x != b
    ensures ConfirmedDeals(m, b, lender)[x] == Overtaken(m, b, lender, x)
  {
  }

  /** What becomes of another booking when `b` is confirmed. */
  function Overtaken(m: Market, b: Id, lender: Id, x: Id): Deal
    requires b in m.deals && x in m.deals
  {
    var d := m.deals[x];
    if Overlapping(d, m.deals[b]) && LivePending(d, m.clock)
    then d.(status := Cancelled, expiresAt := None, reason := Some(CompetingConfirmed),
            deposit := if d.deposit.Some? && d.deposit.value.status == Unpaid
                       then Some(d.deposit.value.(status := Voided)) else d.deposit,
            history := d.history + [Entry(Some(lender), CancelCompeting, Some(Pending), Cancelled)])
    else d
  }

  lemma Pendings(m: Market, b: Id)
    requires Reachable(m)
    ensures b in m.deals && m.deals[b].status == Pending ==> m.deals[b].expiresAt.Some?
  {
    hide Reachable, MoneyOk, ActsOk, HistoryOk, TermsOk;
    if b in m.deals { RowOk(m, b, m.deals[b]); }
  }

  lemma NeverConflicts(m: Market, b: Id)
    requires Reachable(m)
    ensures b in m.deals && LivePending(m.deals[b], m.clock) ==>
              !ReservedBy(m, {b}, m.deals[b].item, m.deals[b].start, m.deals[b].end)
  {
    hide Reachable, Inv, RequestsUnique, NoDoubleBooking, Capped, LeasesFenced;
    ReachableOk(m);
  }

  /** Every condition `create` puts on a new booking. */
  ghost predicate Bookable(
    m: Market, r: Request, listing: Option<Listing>, policy: Policy, blocked: bool, today: int)
  {
    && today <= r.start <= today + 90 && 1 <= r.end - r.start + 1 <= 30
    && (forall b | b in m.deals :: !(m.deals[b].borrower == r.borrower && m.deals[b].request == r.request))
    && |set b | b in m.deals && m.deals[b].borrower == r.borrower && LivePending(m.deals[b], m.clock)| < 5
    && listing.Some? && listing.value.owner != r.borrower && !blocked
    && (forall p | p in m.periods ::
          !(m.periods[p].item == r.item && m.periods[p].start <= r.end && r.start <= m.periods[p].end))
    && (forall b | b in m.deals && Asked(m.deals[b], r) :: !Reserving(m.deals[b].status))
    && |set b | b in m.deals && Asked(m.deals[b], r) && LivePending(m.deals[b], m.clock)| < 20
    && Payable(listing.value, policy, r.end - r.start + 1)
  }

  /** `create` makes a booking exactly under these conditions, and its first rows are these. */
  lemma BookIff(
    m: Market, id: Id, r: Request, listing: Option<Listing>, policy: Policy, blocked: bool, today: int)
    requires id !in m.deals
    ensures var next := Next(m, Book(id, r, listing, policy, blocked, today));
            if Bookable(m, r, listing, policy, blocked, today)
            then
              var total := listing.value.pricePerDay * (r.end - r.start + 1) + listing.value.deposit;
              var held := listing.value.deposit > 0;
              next == m.(deals := m.deals[id := Deal(
                r.item, r.borrower, listing.value.owner, r.request, r.payload, r.start, r.end,
                Terms(policy.fake, total, listing.value.deposit, if held then Some(policy.windowMs) else None),
                Pending, Some(m.clock + 12 * 3600 * 1000), None, None,
                if held then Some(Deposit(listing.value.deposit, Unpaid, None, 0, 0)) else None,
                [], None, map[], [Entry(Some(r.borrower), Create, None, Pending)])])
            else next == m
  {
    hide LivePending, Reserving, NewTerms, RequestIn, ActivePending, Competing, CalendarTaken, ReservedBy, NewDeal,
      Bookable;
    BookableIs(m, r, listing, policy, blocked, today);
    if listing.Some? && r.start <= r.end && (policy.fake || listing.value.deposit == 0) &&
       (policy.fake ==> listing.value.deposit <= policy.maximumMinor)
    {
      TermsAre(listing.value, policy, r.end - r.start + 1);
    }
    if Bookable(m, r, listing, policy, blocked, today) {
      FirstRows(r, listing.value, policy.fake, policy.windowMs, m.clock);
    }
  }

  lemma FirstRows(r: Request, listing: Listing, fake: bool, windowMs: nat, clock: Time)
    ensures var total := listing.pricePerDay * (r.end - r.start + 1) + listing.deposit;
            var held := listing.deposit > 0;
            total >= 0 ==>
            var terms := Terms(fake, total, listing.deposit, if held then Some(windowMs) else None);
            NewDeal(r, listing, terms, clock) == Deal(
              r.item, r.borrower, listing.owner, r.request, r.payload, r.start, r.end, terms,
              Pending, Some(clock + 12 * 3600 * 1000), None, None,
              if held then Some(Deposit(listing.deposit, Unpaid, None, 0, 0)) else None,
              [], None, map[], [Entry(Some(r.borrower), Create, None, Pending)])
  {
  }

  /** The same in terms of the queries of `create`. */
  lemma BookableIs(m: Market, r: Request, listing: Option<Listing>, policy: Policy, blocked: bool, today: int)
    ensures Bookable(m, r, listing, policy, blocked, today) <==>
            ParsePeriod(r.start, r.end, today).Some? && RequestIn(m, r.borrower, r.request).None? &&
            |ActivePending(m, r.borrower)| < 5 && listing.Some? && listing.value.owner != r.borrower && !blocked &&
            !CalendarTaken(m, r.item, r.start, r.end) && !ReservedBy(m, {}, r.item, r.start, r.end) &&
            |Competing(m, r.item, r.start, r.end)| < 20 && Payable(listing.value, policy, r.end - r.start + 1)
  {
    hide RequestIn, ActivePending, Competing, Payable, CalendarTaken, ReservedBy, Reserving, LivePending;
    QueriesAre(m, r);
  }

  lemma QueriesAre(m: Market, r: Request)
    ensures ActivePending(m, r.borrower) ==
            set b | b in m.deals && m.deals[b].borrower == r.borrower && LivePending(m.deals[b], m.clock)
    ensures Competing(m, r.item, r.start, r.end) ==
            set b | b in m.deals && Asked(m.deals[b], r) && LivePending(m.deals[b], m.clock)
    ensures CalendarTaken(m, r.item, r.start, r.end) <==>
            !forall p | p in m.periods ::
              !(m.periods[p].item == r.item && m.periods[p].start <= r.end && r.start <= m.periods[p].end)
    ensures ReservedBy(m, {}, r.item, r.start, r.end) <==>
            !forall b | b in m.deals && Asked(m.deals[b], r) :: !Reserving(m.deals[b].status)
  {
  }

  lemma TermsAre(listing: Listing, policy: Policy, days: int)
    requires days >= 1 && (policy.fake || listing.deposit == 0)
    requires policy.fake ==> listing.deposit <= policy.maximumMinor
    ensures NewTerms(listing, policy, days) ==
            if Payable(listing, policy, days)
            then Some(Terms(policy.fake, listing.pricePerDay * days + listing.deposit, listing.deposit,
                            if listing.deposit > 0 then Some(policy.windowMs) else None))
            else None
  {
  }

  /** The booking is of the item and some day of the request. */
  predicate Asked(d: Deal, r: Request) {
    d.item == r.item && d.start <= r.end && r.start <= d.end
  }

  /** A deposit only with the fake payment and within its maximum, some rental to charge, and safe amounts. */
  predicate Payable(listing: Listing, policy: Policy, days: int) {
    listing.pricePerDay * days + listing.deposit <= MAX_SAFE &&
    if policy.fake then listing.deposit <= policy.maximumMinor && listing.pricePerDay * days > 0
    else listing.deposit == 0
  }

  /** A block cancels exactly the live requests between the two. */
  lemma BlockIff(m: Market, blocker: Id, other: Id)
    requires blocker != other
    ensures var next := Next(m, BlockUser(blocker, other));
            && next == m.(deals := next.deals) && next.deals.Keys == m.deals.Keys
            && forall b | b in m.deals ::
                 var d := m.deals[b];
                 next.deals[b] ==
                   if LivePending(d, m.clock) && {d.borrower, d.lender} == {blocker, other}
                   then d.(status := Cancelled, expiresAt := None, reason := Some(ParticipantBlocked),
                           history := d.history + [Entry(Some(blocker), BlockCounterparty, Some(Pending), Cancelled)])
                   else d
  {
  }

  /** The owner closes days exactly where nobody has reserved or closed any. */
  lemma AddPeriodIff(m: Market, id: Id, owned: bool, item: Id, start: int, end: int, today: int)
    requires id !in m.periods
    ensures var next := Next(m, AddPeriod(id, owned, item, start, end, today));
            if owned && today <= start <= today + 90 && 1 <= end - start + 1 <= 30 &&
               (forall b | b in m.deals ::
                  m.deals[b].item == item && m.deals[b].start <= end && start <= m.deals[b].end ==>
                    !Reserving(m.deals[b].status)) &&
               (forall p | p in m.periods ::
                  !(m.periods[p].item == item && m.periods[p].start <= end && start <= m.periods[p].end))
            then next == m.(periods := m.periods[id := Period(item, start, end)])
            else next == m
  {
    hide Reserving;
  }

  lemma RemovePeriodIff(m: Market, id: Id, owned: bool, item: Id)
    ensures Next(m, RemovePeriod(id, owned, item)) ==
            if owned && id in m.periods && m.periods[id].item == item then m.(periods := m.periods - {id}) else m
  {
  }

  // ---------------------------------------------------------------- blocks

  /** The pair's requests are refused: what the table of blocks says of a pair is handed to every `create`. */
  predicate Respects(c: Command, one: Id, other: Id) {
    c.Book? && c.listing.Some? && {c.r.borrower, c.listing.value.owner} == {one, other} ==> c.blocked
  }

  ghost predicate NothingBetween(m: Market, one: Id, other: Id) {
    forall b | b in m.deals && LivePending(m.deals[b], m.clock) ::
      {m.deals[b].borrower, m.deals[b].lender} != {one, other}
  }

  /** After a block no request between the two is ever waiting again, as long as the block stands. */
  lemma BlockHolds(m: Market, one: Id, other: Id, cs: seq<Command>)
    requires Reachable(m) && one != other && forall c | c in cs :: Respects(c, one, other)
    ensures NothingBetween(Run(Next(m, BlockUser(one, other)), cs), one, other)
  {
    hide Reachable, Run, Respects;
    ReachableNext(m, BlockUser(one, other));
    BlockClears(m, one, other);
    StaysClear(Next(m, BlockUser(one, other)), one, other, cs);
  }

  lemma BlockClears(m: Market, one: Id, other: Id)
    requires one != other
    ensures NothingBetween(Next(m, BlockUser(one, other)), one, other)
  {
    BlockIff(m, one, other);
    hide Next;
  }

  lemma {:induction false} StaysClear(m: Market, one: Id, other: Id, cs: seq<Command>)
    requires Reachable(m) && NothingBetween(m, one, other) && forall c | c in cs :: Respects(c, one, other)
    ensures NothingBetween(Run(m, cs), one, other)
    decreases |cs|
  {
    hide Reachable, Next, NothingBetween, Respects;
    if cs != [] {
      StepStaysClear(m, one, other, cs[0]);
      ReachableNext(m, cs[0]);
      StaysClear(Next(m, cs[0]), one, other, cs[1..]);
    }
  }

  lemma StepStaysClear(m: Market, one: Id, other: Id, c: Command)
    requires Reachable(m) && NothingBetween(m, one, other) && Respects(c, one, other)
    ensures NothingBetween(Next(m, c), one, other)
  {
    hide Reachable, Next, Inv, MarketOk, Evolves;
    var next := Next(m, c);
    ClockRuns(m, c);
    forall b | b in next.deals && LivePending(next.deals[b], next.clock)
      ensures {next.deals[b].borrower, next.deals[b].lender} != {one, other}
    {
      if b !in m.deals { BookedOpenly(m, c, b); }
      else {
        ReachableOk(m);
        NextEvolves(m, c);
        Waited(m.deals[b], next.deals[b], m.clock, next.clock);
      }
    }
  }

  lemma ClockRuns(m: Market, c: Command)
    ensures m.clock <= Next(m, c).clock
  {
    hide Exec, ConfirmedDeals, BlockedDeals, BookTx;
  }

  lemma BookedOpenly(m: Market, c: Command, b: Id)
    requires b !in m.deals && b in Next(m, c).deals
    ensures c.Book? && !c.blocked && c.listing.Some?
    ensures Next(m, c).deals[b].borrower == c.r.borrower && Next(m, c).deals[b].lender == c.listing.value.owner
  {
    hide Exec, ConfirmRefusal, NewTerms;
  }

  lemma Waited(d: Deal, next: Deal, before: Time, after: Time)
    requires Evolves(d, next) && before <= after && LivePending(next, after)
    ensures LivePending(d, before) && d.borrower == next.borrower && d.lender == next.lender
  {
    hide DepositEvolves, OpsEvolve, DisputeEvolves, ActsEvolve;
  }
}
