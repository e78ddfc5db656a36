/** All commands on one booking, and what no command ever takes back. */
module Evolution {
  import opened Domain
  import opened Deals
  import opened Journal
  import opened DealInvariant
  import opened DealSteps

  datatype Step =
    | Select(lender: Id)
    | Drop(lender: Id)
    | Block(blocker: Id)
    | CancelBy(actor: Id, fakePolicy: bool, now: Time)
    | ExpireAt(now: Time)
    | Pay(borrower: Id, fakePolicy: bool, key: string, checkout: ProviderCall, hold: ProviderCall, now: Time)
    | MakeAct(actor: Id, stage: Stage, intent: Id, readiness: bool, verified: bool, usable: bool)
    | SignAct(actor: Id, stage: Stage, now: Time)
    | Complain(actor: Id, now: Time)
    | Decide(admin: Id, fakePolicy: bool, decision: string, refund: int, release: int, command: string, now: Time)
    | CloseWindow(now: Time)
    | Lease(i: nat, now: Time)
    | Report(i: nat, token: Time, attempts: nat, outcome: ProviderResult, now: Time)
    | Repeat(i: nat, fakePolicy: bool, command: string, now: Time)
    | Finish(now: Time)

  /** The rows after a command; a command that throws leaves them. */
  function Exec(d: Deal, s: Step): Deal {
    match s
    case Select(lender) => if d.status == Pending then Chosen(d, lender) else d
    case Drop(lender) => if d.status == Pending then Outbid(d, lender) else d
    case Block(blocker) => if d.status == Pending then Blocked(d, blocker) else d
    case CancelBy(actor, fakePolicy, now) => CancelTx(d, actor, fakePolicy, now).After(d)
    case ExpireAt(now) => ExpireTx(d, now).After(d)
    case Pay(borrower, fakePolicy, key, checkout, hold, now) =>
      CheckoutTx(d, borrower, fakePolicy, key, checkout, hold, now).After(d)
    case MakeAct(actor, stage, intent, readiness, verified, usable) =>
      CreateActTx(d, actor, stage, intent, readiness, verified, usable).After(d)
    case SignAct(actor, stage, now) => ConfirmActTx(d, actor, stage, now).After(d)
    case Complain(actor, now) => OpenDisputeTx(d, actor, now).After(d)
    case Decide(admin, fakePolicy, decision, refund, release, command, now) =>
      ResolveTx(d, admin, fakePolicy, decision, refund, release, command, now).After(d)
    case CloseWindow(now) => DeadlineTx(d, now).After(d)
    case Lease(i, now) => ClaimTx(d, i, now).After(d)
    case Report(i, token, attempts, outcome, now) => ApplyTx(d, i, token, attempts, outcome, now).After(d)
    case Repeat(i, fakePolicy, command, now) => RetryTx(d, i, fakePolicy, command, now).After(d)
    case Finish(now) => CompleteTx(d, now, DepositSettled).After(d)
  }

  lemma ExecKeeps(d: Deal, s: Step)
    requires Inv(d)
    ensures Inv(Exec(d, s))
  {
    hide Inv, Chosen, Outbid, Blocked, CancelTx, ExpireTx, CheckoutTx, CreateActTx, ConfirmActTx, OpenDisputeTx,
      ResolveTx, DeadlineTx, ClaimTx, ApplyTx, RetryTx, CompleteTx;
    match s
    case Select(lender) => if d.status == Pending { ConfirmKeeps(d, lender); }
    case Drop(lender) => if d.status == Pending { OutbidKeeps(d, lender); }
    case Block(blocker) => if d.status == Pending { BlockKeeps(d, blocker); }
    case CancelBy(actor, fakePolicy, now) => CancelKeeps(d, actor, fakePolicy, now);
    case ExpireAt(now) => ExpireKeeps(d, now);
    case Pay(borrower, fakePolicy, key, checkout, hold, now) =>
      CheckoutKeeps(d, borrower, fakePolicy, key, checkout, hold, now);
    case MakeAct(actor, stage, intent, readiness, verified, usable) =>
      CreateActKeeps(d, actor, stage, intent, readiness, verified, usable);
    case SignAct(actor, stage, now) => ConfirmActKeeps(d, actor, stage, now);
    case Complain(actor, now) => OpenDisputeKeeps(d, actor, now);
    case Decide(admin, fakePolicy, decision, refund, release, command, now) =>
      ResolveKeeps(d, admin, fakePolicy, decision, refund, release, command, now);
    case CloseWindow(now) => DeadlineKeeps(d, now);
    case Lease(i, now) => ClaimKeeps(d, i, now);
    case Report(i, token, attempts, outcome, now) => ApplyKeeps(d, i, token, attempts, outcome, now);
    case Repeat(i, fakePolicy, command, now) => RetryKeeps(d, i, fakePolicy, command, now);
    case Finish(now) => SettledTriggerIdle(d, now);
  }

  // ---------------------------------------------------------------- what is never taken back

  predicate Terminal(s: BookingStatus) {
    s == Completed || s == Cancelled
  }

  /** The operation stays what it is, and once decided its outcome stays. */
  predicate OpEvolves(op: Operation, next: Operation) {
    next.kind == op.kind && next.amount == op.amount && next.key == op.key && next.retryOf == op.retryOf &&
    (op.status != Waiting ==> next.status == op.status) && (op.providerId.Some? ==> next.providerId == op.providerId)
  }

  predicate OpsEvolve(ops: seq<Operation>, next: seq<Operation>) {
    |ops| <= |next| && forall i | 0 <= i < |ops| :: OpEvolves(ops[i], next[i])
  }

  predicate ActsEvolve(acts: map<Stage, Act>, next: map<Stage, Act>) {
    forall stage | stage in acts ::
      stage in next && next[stage].author == acts[stage].author && next[stage].intent == acts[stage].intent &&
      (acts[stage].confirmedBy.Some? ==> next[stage] == acts[stage])
  }

  predicate DisputeEvolves(dispute: Option<Dispute>, next: Option<Dispute>) {
    dispute.Some? ==>
      next.Some? && next.value.openedBy == dispute.value.openedBy &&
      (DisputeDecidedBy(dispute) ==> next == dispute)
  }

  predicate DepositEvolves(dep: Option<Deposit>, next: Option<Deposit>) {
    if dep.None? then next.None?
    else next.Some? && next.value.amount == dep.value.amount &&
         dep.value.refunded <= next.value.refunded && dep.value.released <= next.value.released &&
         (dep.value.status == next.value.status || DepositRank(dep.value.status) < DepositRank(next.value.status))
  }

  predicate SameRequest(d: Deal, next: Deal) {
    d.item == next.item && d.borrower == next.borrower && d.lender == next.lender && d.request == next.request &&
    d.payload == next.payload && d.start == next.start && d.end == next.end && d.terms == next.terms
  }

  predicate Evolves(d: Deal, next: Deal) {
    && SameRequest(d, next)
    && (Terminal(d.status) ==> next.status == d.status && next.reason == d.reason)
    && (next.status == Pending ==> d.status == Pending && next.expiresAt == d.expiresAt)
    && (Reserving(next.status) ==> Reserving(d.status) || d.status == Pending)
    && (d.payment.Some? ==> next.payment == d.payment)
    && DepositEvolves(d.deposit, next.deposit)
    && OpsEvolve(d.ops, next.ops)
    && DisputeEvolves(d.dispute, next.dispute)
    && ActsEvolve(d.acts, next.acts)
    && d.history <= next.history
  }

  lemma EvolvesTransitive(a: Deal, b: Deal, c: Deal)
    requires Evolves(a, b) && Evolves(b, c)
    ensures Evolves(a, c)
  {
  }

  /** Each transaction writes at most one new deposit status and one new dispute status, and the tables allow them. */
  predicate TablesAllow(d: Deal, next: Deal) {
    && (d.deposit.Some? && next.deposit.Some? && next.deposit.value.status != d.deposit.value.status
        ==> DepositMay(d.deposit.value.status, next.deposit.value.status))
    && (d.dispute.Some? && next.dispute.Some? && next.dispute.value.status != d.dispute.value.status
        ==> DisputeMay(d.dispute.value.status, next.dispute.value.status))
  }

  /** Every command respects both. */
  lemma ExecEvolves(d: Deal, s: Step)
    requires Inv(d)
    ensures Evolves(d, Exec(d, s)) && TablesAllow(d, Exec(d, s))
  {
    match s
    case Select(_) => LifecycleEvolves(d, s);
    case Drop(_) => LifecycleEvolves(d, s);
    case Block(_) => LifecycleEvolves(d, s);
    case CancelBy(_, _, _) => CancelEvolves(d, s);
    case ExpireAt(_) => LifecycleEvolves(d, s);
    case Pay(_, _, _, _, _, _) => PayEvolves(d, s);
    case MakeAct(_, _, _, _, _, _) => ActEvolves(d, s);
    case SignAct(_, _, _) => SignEvolves(d, s);
    case Complain(_, _) => QuarrelEvolves(d, s);
    case Decide(_, _, _, _, _, _, _) => DecideEvolves(d, s);
    case CloseWindow(_) => QuarrelEvolves(d, s);
    case Lease(_, _) => WorkerEvolves(d, s);
    case Report(_, _, _, _, _) => ReportEvolves(d, s);
    case Repeat(_, _, _, _) => WorkerEvolves(d, s);
    case Finish(now) => SettledTriggerIdle(d, now);
  }

  lemma LifecycleEvolves(d: Deal, s: Step)
    requires Inv(d) && (s.Select? || s.Drop? || s.Block? || s.ExpireAt?)
    ensures Evolves(d, Exec(d, s)) && TablesAllow(d, Exec(d, s))
  {
    hide MoneyOk, TermsOk, HistoryOk, ActsOk;
  }

  lemma CancelEvolves(d: Deal, s: Step)
    requires Inv(d) && s.CancelBy?
    ensures Evolves(d, Exec(d, s)) && TablesAllow(d, Exec(d, s))
  {
    hide MoneyOk, TermsOk, HistoryOk, ActsOk;
  }

  lemma PayEvolves(d: Deal, s: Step)
    requires Inv(d) && s.Pay?
    ensures Evolves(d, Exec(d, s)) && TablesAllow(d, Exec(d, s))
  {
    hide MoneyOk, TermsOk, HistoryOk, ActsOk;
  }

  lemma ActEvolves(d: Deal, s: Step)
    requires Inv(d) && s.MakeAct?
    ensures Evolves(d, Exec(d, s)) && TablesAllow(d, Exec(d, s))
  {
    hide Inv;
  }

  lemma SignEvolves(d: Deal, s: Step)
    requires Inv(d) && s.SignAct?
    ensures Evolves(d, Exec(d, s)) && TablesAllow(d, Exec(d, s))
  {
    hide MoneyOk, TermsOk, ActsOk, HistoryOk;
  }

  lemma QuarrelEvolves(d: Deal, s: Step)
    requires Inv(d) && (s.Complain? || s.CloseWindow?)
    ensures Evolves(d, Exec(d, s)) && TablesAllow(d, Exec(d, s))
  {
    hide MoneyOk, TermsOk, HistoryOk, ActsOk, FindKey;
  }

  lemma DecideEvolves(d: Deal, s: Step)
    requires Inv(d) && s.Decide?
    ensures Evolves(d, Exec(d, s)) && TablesAllow(d, Exec(d, s))
  {
    hide MoneyOk, TermsOk, HistoryOk, ActsOk, HasLeg, LegOperation;
  }

  lemma WorkerEvolves(d: Deal, s: Step)
    requires Inv(d) && (s.Lease? || s.Repeat?)
    ensures Evolves(d, Exec(d, s)) && TablesAllow(d, Exec(d, s))
  {
    hide Inv, FindKey, HasRetry;
  }

  lemma ReportEvolves(d: Deal, s: Step)
    requires Inv(d) && s.Report?
    ensures Evolves(d, Exec(d, s)) && TablesAllow(d, Exec(d, s))
  {
    hide Inv, Settling, CompleteTx, LegPaid, RetryDelay;
    if s.i < |d.ops| && d.deposit.Some? && d.ops[s.i].status == Waiting && d.ops[s.i].processingUntil == Some(s.token) {
      if s.outcome.Success? {
        SuccessKeeps(d, s.i, s.token, s.attempts, s.outcome.providerId, s.now);
        WithinDeposit(d, s.i);
      }
    }
  }
}
