/** Every transaction on a booking keeps its invariant. */
module DealSteps {
  import opened Domain
  import opened Deals
  import opened Journal
  import opened DealInvariant

  // ---------------------------------------------------------------- lifecycle

  lemma LoggedPath(history: seq<Entry>, e: Entry)
    requires IsPath(history) && e.before == Some(history[|history| - 1].after)
    requires BookingMay(history[|history| - 1].after, e.after)
    ensures IsPath(history + [e])
  {
  }

  lemma ConfirmKeeps(d: Deal, lender: Id)
    requires Inv(d) && d.status == Pending
    ensures Inv(Chosen(d, lender))
  {
    LoggedPath(d.history, Entry(Some(lender), Confirm, Some(Pending), Confirmed));
  }

  lemma OutbidKeeps(d: Deal, lender: Id)
    requires Inv(d) && d.status == Pending
    ensures Inv(Outbid(d, lender))
  {
    LoggedPath(d.history, Entry(Some(lender), CancelCompeting, Some(Pending), Cancelled));
  }

  lemma BlockKeeps(d: Deal, blocker: Id)
    requires Inv(d) && d.status == Pending
    ensures Inv(Blocked(d, blocker))
  {
    LoggedPath(d.history, Entry(Some(blocker), BlockCounterparty, Some(Pending), Cancelled));
  }

  lemma ExpireKeeps(d: Deal, now: Time)
    requires Inv(d)
    ensures ExpireTx(d, now).Commit? && Inv(ExpireTx(d, now).deal)
  {
    if Overdue(d, now) { LoggedPath(d.history, Entry(None, Expire, Some(Pending), Cancelled)); }
  }

  /** A held deposit enters settlement with one chain of the whole amount. */
  lemma WholeRefundSettles(d: Deal, key: OpKey, at: Time)
    requires |d.ops| == 1 && IsHold(d.ops[0]) && d.deposit.Some? && d.deposit.value.status == Resolving
    requires d.deposit.value.refunded == d.deposit.value.released == 0 < d.deposit.value.amount
    requires d.dispute.None? && key == if d.status == Cancelled then PreHandoverRefund else AutoRefund
    ensures Settling(d.(ops := d.ops + [NewOperation(RefundOp, d.deposit.value.amount, key, None, at)]))
  {
    var op := NewOperation(RefundOp, d.deposit.value.amount, key, None, at);
    var ops := d.ops + [op];
    RootOpens(d.ops, op);
    OnlyHeld(d.ops);
    assert ops[1].kind == RefundOp;
  }

  lemma CancelKeeps(d: Deal, actor: Id, fakePolicy: bool, now: Time)
    requires Inv(d)
    ensures var tx := CancelTx(d, actor, fakePolicy, now); tx.Commit? ==> Inv(tx.deal)
  {
    var tx := CancelTx(d, actor, fakePolicy, now);
    if tx.Commit? && tx.deal != d {
      var reason := if actor == d.borrower then BorrowerCancelled else LenderDeclined;
      if DepositIs(d, {Held}) { CancelHeldKeeps(d, actor, reason, now); } else { CancelUnpaidKeeps(d, actor, reason); }
    }
  }

  function Called(d: Deal, actor: Id, reason: Reason): Deal {
    Log(d, Some(actor), Cancel, Cancelled).(reason := Some(reason), expiresAt := None)
  }

  lemma CancelUnpaidKeeps(d: Deal, actor: Id, reason: Reason)
    requires Inv(d) && (d.status == Pending || d.status == Confirmed) && !DepositIs(d, {Held})
    ensures Inv(VoidUnpaid(Called(d, actor, reason)))
  {
    LoggedPath(d.history, Entry(Some(actor), Cancel, Some(d.status), Cancelled));
  }

  lemma CancelHeldKeeps(d: Deal, actor: Id, reason: Reason, now: Time)
    requires Inv(d) && d.status == Confirmed && DepositIs(d, {Held})
    ensures Inv(WithDeposit(Called(d, actor, reason), Resolving).(
                  ops := d.ops + [NewOperation(RefundOp, d.deposit.value.amount, PreHandoverRefund, None, now)]))
  {
    hide Settling, Chained;
    LoggedPath(d.history, Entry(Some(actor), Cancel, Some(d.status), Cancelled));
    WholeRefundSettles(WithDeposit(Called(d, actor, reason), Resolving), PreHandoverRefund, now);
  }

  lemma CheckoutKeeps(d: Deal, borrower: Id, fakePolicy: bool, key: string, checkout: ProviderCall, hold: ProviderCall,
      now: Time)
    requires Inv(d)
    ensures var tx := CheckoutTx(d, borrower, fakePolicy, key, checkout, hold, now); tx.Commit? ==> Inv(tx.deal)
  {
  }

  // ---------------------------------------------------------------- acts and completion

  lemma CreateActKeeps(d: Deal, actor: Id, stage: Stage, intent: Id, readiness: bool, verified: bool, usable: bool)
    requires Inv(d)
    ensures var tx := CreateActTx(d, actor, stage, intent, readiness, verified, usable); tx.Commit? ==> Inv(tx.deal)
  {
  }

  lemma ConfirmActKeeps(d: Deal, actor: Id, stage: Stage, now: Time)
    requires Inv(d)
    ensures var tx := ConfirmActTx(d, actor, stage, now); tx.Commit? ==> Inv(tx.deal)
    ensures ConfirmActTx(d, actor, stage, now) != Abort(UnexpectedDeposit)
  {
    if stage == Handover { HandoverKeeps(d, actor, now); } else { ReturnKeeps(d, actor, now); }
  }

  lemma HandoverKeeps(d: Deal, actor: Id, now: Time)
    requires Inv(d)
    ensures var tx := ConfirmActTx(d, actor, Handover, now); tx.Commit? ==> Inv(tx.deal)
    ensures ConfirmActTx(d, actor, Handover, now) != Abort(UnexpectedDeposit)
  {
    hide Settling;
    if d.status == Confirmed { LoggedPath(d.history, Entry(Some(actor), ConfirmHandover, Some(Confirmed), Active)); }
  }

  lemma ReturnKeeps(d: Deal, actor: Id, now: Time)
    requires Inv(d)
    ensures var tx := ConfirmActTx(d, actor, Return, now); tx.Commit? ==> Inv(tx.deal)
    ensures ConfirmActTx(d, actor, Return, now) != Abort(UnexpectedDeposit)
  {
    hide Settling;
    if d.status == Active {
      var first := Entry(Some(actor), ConfirmReturn, Some(Active), Returned);
      LoggedPath(d.history, first);
      LoggedPath(d.history + [first], Entry(None, CompleteAfterReturn, Some(Returned), Completed));
    }
  }

  /** The settled trigger never moves a booking: it left RETURNED when its settlement was scheduled. */
  lemma SettledTriggerIdle(d: Deal, now: Time)
    requires Inv(d)
    ensures CompleteTx(d, now, DepositSettled).After(d) == d
    ensures DepositIs(d, {Resolving, Resolved}) ==> CompleteTx(d, now, DepositSettled) == Commit(d, 0)
  {
  }

  // ---------------------------------------------------------------- disputes and the deadline

  lemma OpenDisputeKeeps(d: Deal, actor: Id, now: Time)
    requires Inv(d)
    ensures var tx := OpenDisputeTx(d, actor, now); tx.Commit? ==> Inv(tx.deal)
  {
  }

  /** The decided legs open one chain each and together carry the whole deposit. */
  lemma LegsSettle(d: Deal, refund: nat, release: nat, command: string, now: Time)
    requires |d.ops| == 1 && IsHold(d.ops[0])
    requires refund + release > 0
    ensures var ops := d.ops + (LegOperation(RefundOp, refund, command, now) +
            LegOperation(ReleaseOp, release, command, now));
            Chained(ops) && Outstanding(ops, |ops|) == refund + release &&
            Credited(ops, RefundOp, |ops|) == 0 && Credited(ops, ReleaseOp, |ops|) == 0
  {
    var refunds := d.ops + LegOperation(RefundOp, refund, command, now);
    OnlyHeld(d.ops);
    if refund > 0 {
      RootOpens(d.ops, NewOperation(RefundOp, refund, Resolution(command, RefundOp), None, now));
    } else {
      assert refunds == d.ops;
    }
    if release > 0 {
      RootOpens(refunds, NewOperation(ReleaseOp, release, Resolution(command, ReleaseOp), None, now));
      assert d.ops + (LegOperation(RefundOp, refund, command, now) + LegOperation(ReleaseOp, release, command, now))
          == refunds + [NewOperation(ReleaseOp, release, Resolution(command, ReleaseOp), None, now)];
    } else {
      assert d.ops + (LegOperation(RefundOp, refund, command, now) + LegOperation(ReleaseOp, release, command, now)) ==
        refunds;
    }
  }

  /** The rows after a first decision. */
  function DecidedDeal(d: Deal, decided: Dispute, command: string, now: Time): Deal
    requires d.deposit.Some?
  {
    var legs := LegOperation(RefundOp, decided.refund, command, now) +
        LegOperation(ReleaseOp, decided.release, command, now);
    Log(WithDeposit(d, Resolving).(ops := d.ops + legs, dispute := Some(decided)), None, CompleteAfterDecision,
        Completed)
  }

  lemma ResolveKeeps(d: Deal, admin: Id, fakePolicy: bool, decision: string, refund: int, release: int,
      command: string, now: Time)
    requires Inv(d)
    ensures var tx := ResolveTx(d, admin, fakePolicy, decision, refund, release, command, now); tx.Commit? ==>
            Inv(tx.deal)
  {
    var tx := ResolveTx(d, admin, fakePolicy, decision, refund, release, command, now);
    if tx.Commit? && tx.deal != d {
      DecidedKeeps(d, tx.deal.dispute.value, command, now);
    }
  }

  lemma DecidedKeeps(d: Deal, decided: Dispute, command: string, now: Time)
    requires Inv(d) && d.status == Returned && DepositIs(d, {Disputed})
    requires decided.status == Decided && decided.refund + decided.release == d.deposit.value.amount
    ensures Inv(DecidedDeal(d, decided, command, now))
  {
    hide Settling, LegOperation, Chained;
    LoggedPath(d.history, Entry(None, CompleteAfterDecision, Some(Returned), Completed));
    DecidedSettles(d, decided, command, now);
  }

  lemma DecidedSettles(d: Deal, decided: Dispute, command: string, now: Time)
    requires MoneyOk(d) && DepositIs(d, {Disputed})
    requires decided.status == Decided && decided.refund + decided.release == d.deposit.value.amount
    ensures DecidedDeal(d, decided, command, now).deposit.Some? && Settling(DecidedDeal(d, decided, command, now))
  {
    var next := DecidedDeal(d, decided, command, now);
    LegsSettle(d, decided.refund, decided.release, command, now);
    hide Chained;
    if decided.refund > 0 { assert next.ops[1].kind == RefundOp; }
    if decided.release > 0 { assert next.ops[if decided.refund > 0 then 2 else 1].kind == ReleaseOp; }
  }

  lemma DeadlineKeeps(d: Deal, now: Time)
    requires Inv(d)
    ensures DeadlineTx(d, now).Commit? && Inv(DeadlineTx(d, now).deal)
  {
    if DeadlineTx(d, now).Commit? && DeadlineTx(d, now).deal != d {
      LoggedPath(d.history, Entry(None, CompleteAfterWindow, Some(Returned), Completed));
      WholeRefundSettles(Log(WithDeposit(d, Resolving), None, CompleteAfterWindow, Completed), AutoRefund, now);
    }
  }

  // ---------------------------------------------------------------- the worker and its retries

  /** A settlement step that touches only operations and amounts keeps the invariant if it keeps the money right. */
  lemma MoneySuffices(d: Deal, next: Deal)
    requires Inv(d) && DepositIs(d, {Resolving}) && DepositIs(next, {Resolving, Resolved})
    requires next == d.(ops := next.ops, deposit := next.deposit) && Settling(next)
    requires next.deposit.value.amount == d.deposit.value.amount
    requires next.deposit.value.windowEndsAt == d.deposit.value.windowEndsAt
    ensures Inv(next)
  {
    hide Settling, Chained;
    assert MoneyOk(next) && StatusOk(next) && ActsOk(next) && HistoryOk(next);
  }

  /** Legs do not depend on the status, the lease or the outcome of an operation. */
  lemma LegsKept(d: Deal, next: Deal)
    requires d.deposit.Some? && next.deposit.Some? && Legs(d)
    requires next == d.(ops := next.ops, deposit := next.deposit)
    requires next.deposit.value.amount == d.deposit.value.amount
    requires |next.ops| == |d.ops| && next.ops[0] == d.ops[0]
    requires forall i | 0 <= i < |d.ops| ::
               next.ops[i].kind == d.ops[i].kind && next.ops[i].amount == d.ops[i].amount &&
               next.ops[i].key == d.ops[i].key && next.ops[i].retryOf == d.ops[i].retryOf
    ensures Legs(next)
  {
    forall kind | HasKind(d.ops, kind) ensures HasKind(next.ops, kind) {
      var i :| 1 <= i < |d.ops| && d.ops[i].kind == kind;
      assert next.ops[i].kind == kind;
    }
  }

  lemma LeaseFieldsKeep(d: Deal, i: nat, op: Operation)
    requires Inv(d) && i < |d.ops| && d.ops[i].status == Waiting
    requires op == d.ops[i].(attempts := op.attempts, processingUntil := op.processingUntil,
             nextAttemptAt := op.nextAttemptAt)
    ensures Inv(d.(ops := d.ops[i := op]))
  {
    hide Inv, Chained, Legs;
    WithinDeposit(d, i);
    var next := d.(ops := d.ops[i := op]);
    SameMoneyKeeps(d.ops, next.ops);
    LegsKept(d, next);
    MoneySuffices(d, next);
  }

  lemma ClaimKeeps(d: Deal, i: nat, now: Time)
    requires Inv(d)
    ensures ClaimTx(d, i, now).Commit? && Inv(ClaimTx(d, i, now).deal)
  {
    if Claimable(d, i, now) { LeaseFieldsKeep(d, i, ClaimTx(d, i, now).deal.ops[i]); }
  }

  lemma FailureKeeps(d: Deal, i: nat, op: Operation)
    requires Inv(d) && i < |d.ops| && d.ops[i].status == Waiting
    requires op == d.ops[i].(status := Failed, processingUntil := None)
    ensures Inv(d.(ops := d.ops[i := op]))
  {
    hide Inv, Chained, Legs;
    WithinDeposit(d, i);
    var next := d.(ops := d.ops[i := op]);
    FailKeeps(d.ops, i, op);
    LegsKept(d, next);
    MoneySuffices(d, next);
  }

  /** The amounts reach the total exactly when every leg of the decision was paid. */
  lemma AmountsAgreeWithLegs(d: Deal, i: nat, id: string)
    requires Inv(d) && i < |d.ops| && d.ops[i].status == Waiting
    ensures var ops := d.ops[i := Done(d.ops[i], id)];
            d.deposit.value.refunded + d.deposit.value.released + d.ops[i].amount == d.deposit.value.amount
            <==> DecisionPaid(ops, d.dispute)
  {
    hide Inv, Chained, Legs, LegPaid;
    WithinDeposit(d, i);
    var op := Done(d.ops[i], id);
    var next := d.(ops := d.ops[i := op]);
    SuccessMoves(d.ops, i, op);
    LegsKept(d, next);
    if Outstanding(next.ops, |next.ops|) == 0 {
      NothingOpenPaysLegs(next, RefundOp);
      NothingOpenPaysLegs(next, ReleaseOp);
    } else if DecisionPaid(next.ops, d.dispute) {
      PaidLegsLeaveNothing(next, i);
    }
  }

  /** A succeeded leg has no open operation of its kind beside it. */
  lemma PaidLegsLeaveNothing(d: Deal, i: nat)
    requires d.deposit.Some? && Legs(d) && Chained(d.ops) && DecisionPaid(d.ops, d.dispute)
    requires 1 <= i < |d.ops| && d.ops[i].status == Succeeded
    ensures Outstanding(d.ops, |d.ops|) == 0
  {
    hide Chained, LegPaid, HasRetry;
    forall k | 0 <= k < |d.ops| ensures OpenAmount(d.ops, k) == 0 {
      if k >= 1 && d.dispute.Some? {
        assert LegPaid(d.ops, d.ops[k].kind, LegAmount(d, d.ops[k].kind));
        PaidLegCloses(d.ops, d.ops[k].kind, LegAmount(d, d.ops[k].kind), k);
      }
    }
    NoneOpen(d.ops, |d.ops|);
  }

  /** Of a kind with a succeeded operation nothing is open: every other one failed and was retried. */
  lemma PaidLegCloses(ops: seq<Operation>, kind: OpKind, amount: nat, k: nat)
    requires Chained(ops) && LegPaid(ops, kind, amount) && amount > 0 && k < |ops| && ops[k].kind == kind
    ensures OpenAmount(ops, k) == 0
  {
    var j :| 0 <= j < |ops| && ops[j].kind == kind && ops[j].amount == amount && ops[j].status == Succeeded;
    hide LegPaid, Chained, HasRetry;
    if k < j { EarlierFailed(ops, k, j); } else if j < k { EarlierFailed(ops, j, k); }
  }

  lemma SuccessKeeps(d: Deal, i: nat, token: Time, attempts: nat, id: string, now: Time)
    requires Inv(d) && i < |d.ops| && d.ops[i].status == Waiting && d.ops[i].processingUntil == Some(token)
    ensures ApplyTx(d, i, token, attempts, Success(id), now) == Commit(PaidOut(d, i, id), ()) && Inv(PaidOut(d, i, id))
  {
    hide Inv, Settling, LegPaid, RetryDelay;
    WithinDeposit(d, i);
    AmountsAgreeWithLegs(d, i, id);
    PaidOutKeeps(d, i, id);
    SettledTriggerIdle(PaidOut(d, i, id), now);
  }

  function PaidOut(d: Deal, i: nat, id: string): Deal
    requires i < |d.ops| && d.deposit.Some?
  {
    var op := Done(d.ops[i], id);
    d.(ops := d.ops[i := op], deposit := Some(Credit(d.deposit.value, op)))
  }

  lemma PaidOutKeeps(d: Deal, i: nat, id: string)
    requires Inv(d) && i < |d.ops| && d.ops[i].status == Waiting && d.deposit.Some?
    ensures Inv(PaidOut(d, i, id)) && DepositIs(PaidOut(d, i, id), {Resolving, Resolved})
  {
    hide Inv, Chained, Legs;
    WithinDeposit(d, i);
    var paid := PaidOut(d, i, id);
    SuccessMoves(d.ops, i, paid.ops[i]);
    LegsKept(d, paid);
    assert Balanced(paid.deposit.value, paid.ops);
    MoneySuffices(d, paid);
  }

  /** The deposit row after a success of `op`, by the amounts alone. */
  function Credit(dep: Deposit, op: Operation): Deposit {
    var refunded := if op.kind == RefundOp then dep.refunded + op.amount else dep.refunded;
    var released := if op.kind == ReleaseOp then dep.released + op.amount else dep.released;
    dep.(refunded := refunded, released := released,
      status := if refunded + released == dep.amount then Resolved else Resolving)
  }

  /** Applying any outcome commits: the overdraw check and the settlement checks never fire. */
  lemma ApplyKeeps(d: Deal, i: nat, token: Time, attempts: nat, outcome: ProviderResult, now: Time)
    requires Inv(d)
    ensures var tx := ApplyTx(d, i, token, attempts, outcome, now); tx.Commit? && Inv(tx.deal)
  {
    var tx := ApplyTx(d, i, token, attempts, outcome, now);
    if i < |d.ops| && d.deposit.Some? && d.ops[i].status == Waiting && d.ops[i].processingUntil == Some(token) {
      match outcome
      case TimedOut => LeaseFieldsKeep(d, i, tx.deal.ops[i]);
      case Declined(_) => FailureKeeps(d, i, tx.deal.ops[i]);
      case Success(id) => SuccessKeeps(d, i, token, attempts, id, now);
    }
  }

  lemma RetryKeeps(d: Deal, i: nat, fakePolicy: bool, command: string, now: Time)
    requires Inv(d)
    ensures var tx := RetryTx(d, i, fakePolicy, command, now); tx.Commit? ==> Inv(tx.deal)
  {
    var tx := RetryTx(d, i, fakePolicy, command, now);
    if tx.Commit? && tx.deal != d {
      RetryAppends(d, i, NewOperation(d.ops[i].kind, d.ops[i].amount, RetryOf(i, command), Some(i), now));
    }
  }

  lemma RetryAppends(d: Deal, i: nat, op: Operation)
    requires Inv(d) && Retryable(d, i) && !HasRetry(d.ops, i)
    requires op.status == Waiting && op.kind == d.ops[i].kind && op.amount == d.ops[i].amount && op.retryOf == Some(i)
    requires op.key.RetryOf? && op.key.operation == i && op.providerId.None?
    ensures Inv(d.(ops := d.ops + [op]))
  {
    var next := d.(ops := d.ops + [op]);
    assert d.deposit.Some? && Settling(d) && d.dispute.Some? && 1 <= i < |d.ops| by {
      hide StatusOk, ActsOk, HistoryOk, TermsOk, HasRetry;
    }
    hide Inv, Settling;
    RetrySettles(d, i, op);
    MoneySuffices(d, next);
  }

  lemma RetrySettles(d: Deal, i: nat, op: Operation)
    requires d.deposit.Some? && Settling(d) && 1 <= i < |d.ops| && d.dispute.Some? && d.ops[i].status == Failed &&
             !HasRetry(d.ops, i)
    requires op.status == Waiting && op.kind == d.ops[i].kind && op.amount == d.ops[i].amount && op.retryOf == Some(i)
    requires op.key.RetryOf? && op.key.operation == i && op.providerId.None?
    ensures Settling(d.(ops := d.ops + [op]))
  {
    hide Legs, Chained, HasRetry;
    RetryTakesOver(d.ops, i, op);
    LegsAppended(d, i, op);
  }

  lemma LegsAppended(d: Deal, i: nat, op: Operation)
    requires d.deposit.Some? && Legs(d) && 1 <= i < |d.ops| && d.dispute.Some?
    requires op.kind == d.ops[i].kind && op.amount == d.ops[i].amount && op.retryOf.Some?
    ensures Legs(d.(ops := d.ops + [op]))
  {
    var next := d.(ops := d.ops + [op]);
    forall kind | HasKind(d.ops, kind) ensures HasKind(next.ops, kind) {
      var k :| 1 <= k < |d.ops| && d.ops[k].kind == kind;
      assert next.ops[k].kind == kind;
    }
  }
}
