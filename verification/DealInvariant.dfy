/** What every transaction keeps about one booking and its money. */
module DealInvariant {
  import opened Domain
  import opened Deals
  import opened Journal

  /** The share of the deposit each settlement kind has to move. */
  function LegAmount(d: Deal, kind: OpKind): nat
    requires d.deposit.Some?
  {
    match kind
    case RefundOp => if d.dispute.Some? then d.dispute.value.refund else d.deposit.value.amount
    case ReleaseOp => if d.dispute.Some? then d.dispute.value.release else 0
    case _ => 0
  }

  /** The single path a settlement started on, told by the key of its first operations. */
  ghost predicate RootKey(d: Deal, op: Operation) {
    if d.dispute.Some? then op.key.Resolution? && op.key.leg == op.kind
    else if d.status == Cancelled then op.key == PreHandoverRefund
    else op.key == AutoRefund
  }

  ghost predicate IsHold(op: Operation) {
    op.kind == HoldOp && op.status == Succeeded && op.key == HoldKey && op.retryOf.None? && op.providerId.Some?
  }

  ghost predicate HasKind(ops: seq<Operation>, kind: OpKind) {
    exists i | 1 <= i < |ops| :: ops[i].kind == kind
  }

  /** After the hold come only operations of the legs, each for the whole leg, and every leg has one. */
  ghost predicate Legs(d: Deal)
    requires d.deposit.Some?
  {
    && |d.ops| >= 2 && IsHold(d.ops[0])
    && (forall i | 1 <= i < |d.ops| ::
          (d.ops[i].kind == RefundOp || d.ops[i].kind == ReleaseOp) &&
          d.ops[i].amount == LegAmount(d, d.ops[i].kind) > 0 &&
          (d.ops[i].retryOf.None? ==> RootKey(d, d.ops[i])))
    && (d.dispute.None? ==> |d.ops| == 2)
    && (d.dispute.Some? ==>
          d.dispute.value.status == Decided && d.dispute.value.refund + d.dispute.value.release ==
              d.deposit.value.amount)
    && (LegAmount(d, RefundOp) > 0 ==> HasKind(d.ops, RefundOp))
    && (LegAmount(d, ReleaseOp) > 0 ==> HasKind(d.ops, ReleaseOp))
  }

  /** No kopeck is lost or doubled, and RESOLVED is exactly having nothing outstanding. */
  ghost predicate Balanced(dep: Deposit, ops: seq<Operation>) {
    && dep.refunded == Credited(ops, RefundOp, |ops|)
    && dep.released == Credited(ops, ReleaseOp, |ops|)
    && dep.amount == dep.refunded + dep.released + Outstanding(ops, |ops|)
    && (dep.status == Resolved <==> Outstanding(ops, |ops|) == 0)
  }

  /** A settlement in progress or done. */
  ghost predicate Settling(d: Deal)
    requires d.deposit.Some?
  {
    Legs(d) && Chained(d.ops) && Balanced(d.deposit.value, d.ops)
  }

  ghost predicate MoneyOk(d: Deal) {
    if d.deposit.None? then d.ops == [] && d.terms.depositMinor == 0
    else
      var dep := d.deposit.value;
      && d.terms.depositMinor == dep.amount > 0
      && (dep.status == Resolving || dep.status == Resolved ==> Settling(d))
      && (dep.status == Unpaid || dep.status == Voided ==> d.ops == [])
      && (dep.status == Held || dep.status == Disputed ==> |d.ops| == 1 && IsHold(d.ops[0]))
      && (dep.status != Resolving && dep.status != Resolved ==> dep.refunded == dep.released == 0)
  }

  predicate Paid(d: Deal) {
    d.payment.Some? && d.terms.fake && d.payment.value.userId == d.borrower &&
    d.payment.value.status == PaymentSucceeded && d.payment.value.amount == d.terms.totalMinor
  }

  predicate DepositIs(d: Deal, statuses: set<DepositStatus>) {
    d.deposit.Some? && d.deposit.value.status in statuses
  }

  /** Which statuses of payment, deposit and dispute may stand beside each booking status. */
  predicate StatusOk(d: Deal) {
    && (d.payment.Some? ==> Paid(d))
    && (d.status == Pending <==> d.expiresAt.Some?)
    && (d.status == Cancelled <==> d.reason.Some?)
    && (d.deposit.Some? ==> (d.deposit.value.windowEndsAt.Some? <==> d.status == Returned || d.status == Completed))
    && match d.status
       case Pending => d.payment.None? && d.dispute.None? && (d.deposit.None? || DepositIs(d, {Unpaid}))
       case Confirmed => d.dispute.None? && (d.deposit.None? || DepositIs(d, if Paid(d) then {Held} else {Unpaid}))
       case Active => d.dispute.None? && (d.terms.fake ==> Paid(d)) && (d.deposit.None? || DepositIs(d, {Held}))
       case Returned => Paid(d) && DepositIs(d, if d.dispute.Some? then {Disputed} else {Held}) &&
                        (d.dispute.Some? ==> d.dispute.value.status == Open)
       case Completed => (d.terms.fake ==> Paid(d)) &&
                         (if d.deposit.None? then d.dispute.None?
                          else DepositIs(d, {Resolving, Resolved}) &&
                               (d.dispute.Some? ==> d.dispute.value.status == Decided))
       case Cancelled => d.dispute.None? &&
                         (d.deposit.None? || DepositIs(d, if Paid(d) then {Resolving, Resolved}
                             else {Unpaid, Voided})) &&
                         (DepositIs(d, {Unpaid}) ==> d.reason == Some(ParticipantBlocked))
  }

  /** Each act is authored by the side that hands the thing over and signed by the other one. */
  predicate ActsOk(d: Deal) {
    && (forall stage | stage in d.acts ::
          d.acts[stage].author == StageAuthor(d, stage) &&
          (d.acts[stage].confirmedBy.Some? ==>
              d.acts[stage].confirmedBy.value == StageAuthor(d, if stage == Handover then Return else Handover)))
    && (Handover in d.acts && d.acts[Handover].confirmedBy.Some? <==>
       d.status == Active || d.status == Returned || d.status == Completed)
    && (Return in d.acts && d.acts[Return].confirmedBy.Some? <==> d.status == Returned || d.status == Completed)
  }

  /** The history is one path of the workflow contract from the request to the current status. */
  predicate IsPath(history: seq<Entry>) {
    && |history| > 0
    && history[0].before.None? && history[0].after == Pending
    && forall i | 1 <= i < |history| ::
       history[i].before == Some(history[i - 1].after) &&
       BookingMay(history[i - 1].after, history[i].after)
  }

  predicate HistoryOk(d: Deal) {
    IsPath(d.history) && d.history[|d.history| - 1].after == d.status
  }

  predicate TermsOk(t: Terms) {
    && (t.fake && t.depositMinor > 0 <==> t.windowMs.Some?)
    && (!t.fake ==> t.depositMinor == 0)
  }

  ghost predicate Inv(d: Deal) {
    TermsOk(d.terms) && d.borrower != d.lender && MoneyOk(d) && StatusOk(d) && ActsOk(d) && HistoryOk(d)
  }

  // ---------------------------------------------------------------- reading the invariant

  /** Each step of a path climbs the contract, so the n-th entry has a status of rank n or more. */
  lemma {:induction false} PathRank(history: seq<Entry>, n: nat)
    requires IsPath(history) && n < |history|
    ensures n <= Rank(history[n].after)
  {
    if n > 0 { PathRank(history, n - 1); }
  }

  /** A history has at most five entries and ends at the current status. */
  lemma HistoryBound(d: Deal)
    requires Inv(d)
    ensures 1 <= |d.history| <= 5
  {
    PathRank(d.history, |d.history| - 1);
  }

  /** No waiting operation can overdraw its deposit. */
  lemma WithinDeposit(d: Deal, i: nat)
    requires Inv(d) && i < |d.ops| && d.ops[i].status == Waiting
    ensures d.deposit.Some? && d.deposit.value.status == Resolving && i >= 1 && Settling(d)
    ensures d.deposit.value.refunded + d.deposit.value.released + d.ops[i].amount <= d.deposit.value.amount
    ensures d.ops[i].amount > 0 && (d.ops[i].kind == RefundOp || d.ops[i].kind == ReleaseOp) &&
            d.ops[i].providerId.None?
  {
    OpenWithin(d.ops, |d.ops|, i);
  }

  /** When nothing is outstanding, every nonzero leg has a succeeded operation of its whole amount. */
  lemma NothingOpenPaysLegs(d: Deal, kind: OpKind)
    requires d.deposit.Some? && Legs(d) && Chained(d.ops) && Outstanding(d.ops, |d.ops|) == 0
    requires kind == RefundOp || kind == ReleaseOp
    ensures LegPaid(d.ops, kind, LegAmount(d, kind))
  {
    if LegAmount(d, kind) > 0 {
      var i :| 1 <= i < |d.ops| && d.ops[i].kind == kind;
      var last := LastOf(d.ops, kind, i);
      OpenWithin(d.ops, |d.ops|, last);
    }
  }

  /** Following the retries of an operation ends at one that is not retried. */
  lemma LastOf(ops: seq<Operation>, kind: OpKind, i: nat) returns (last: nat)
    requires Chained(ops) && i < |ops| && ops[i].kind == kind
    ensures i <= last < |ops| && ops[last].kind == kind && !HasRetry(ops, last)
    decreases |ops| - i
  {
    if HasRetry(ops, i) {
      var j :| 0 <= j < |ops| && ops[j].retryOf == Some(i);
      last := LastOf(ops, kind, j);
    } else {
      last := i;
    }
  }
}
