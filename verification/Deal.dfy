/**
 * One booking with the rows that hang off it (payment, deposit, deposit operations, dispute, acts,
 * history), and every transaction that changes them under the booking's lock, as a function of
 * those rows. A transaction that throws rolls back, so `Abort` carries no new rows.
 */
module Deals {
  import opened Domain

  const LEASE_MS: int := 60 * 1000
  const INITIAL_RETRY_MS: int := 30 * 1000
  const MAX_RETRY_MS: int := 60 * 60 * 1000

  /** What the services read from the bound terms snapshot of a booking. */
  datatype Terms = Terms(fake: bool, totalMinor: nat, depositMinor: nat, windowMs: Option<nat>)

  datatype Reason = CompetingConfirmed | BorrowerCancelled | LenderDeclined | PendingTimeout | ParticipantBlocked

  datatype CommandName =
    | Create | Confirm | Cancel | CancelCompeting | Expire | BlockCounterparty
    | ConfirmHandover | ConfirmReturn
    | CompleteAfterReturn | CompleteAfterWindow | CompleteAfterDecision | CompleteAfterSettled

  datatype Entry = Entry(actor: Option<Id>, command: CommandName, before: Option<BookingStatus>, after: BookingStatus)

  datatype Payment = Payment(userId: Id, amount: nat, status: PaymentStatus, providerId: string)

  datatype Deposit = Deposit(amount: nat, status: DepositStatus, windowEndsAt: Option<Time>, refunded: nat,
      released: nat)

  /** The idempotency key of a deposit operation; the deposit's own id is left out of each. */
  datatype OpKey =
    | HoldKey
    | PreHandoverRefund
    | AutoRefund
    | Resolution(command: string, leg: OpKind)
    | RetryOf(operation: nat, command: string)

  /** A deposit operation; its id is its position in the deposit's operations. */
  datatype Operation = Operation(
    kind: OpKind, amount: nat, status: OpStatus, key: OpKey, retryOf: Option<nat>,
    attempts: nat, nextAttemptAt: Time, processingUntil: Option<Time>, providerId: Option<string>)

  datatype Dispute = Dispute(
    openedBy: Id, status: DisputeStatus, resolvedBy: Option<Id>, decision: string,
    refund: nat, release: nat)

  datatype Act = Act(author: Id, intent: Id, confirmedBy: Option<Id>)

  datatype Deal = Deal(
    item: Id, borrower: Id, lender: Id, request: string, payload: string,
    start: int, end: int, terms: Terms,
    status: BookingStatus, expiresAt: Option<Time>, reason: Option<Reason>,
    payment: Option<Payment>, deposit: Option<Deposit>, ops: seq<Operation>,
    dispute: Option<Dispute>, acts: map<Stage, Act>, history: seq<Entry>)

  datatype Tx<+T> = Commit(deal: Deal, reply: T) | Abort(error: Error)
  {
    /** The rows after the transaction. */
    function After(before: Deal): Deal {
      if Commit? then deal else before
    }
  }

  datatype ProviderResult = Success(providerId: string) | Declined(code: string) | TimedOut

  /** A provider call either answers or throws. */
  datatype ProviderCall = Answer(result: ProviderResult) | Thrown

  datatype Trigger = ZeroDepositReturn | DisputeWindowClosed | DisputeDecided | DepositSettled

  // ---------------------------------------------------------------- small readings

  predicate IsParty(d: Deal, actor: Id) {
    actor == d.borrower || actor == d.lender
  }

  predicate FullySettled(dep: Deposit) {
    dep.status == Resolved && dep.refunded + dep.released == dep.amount
  }

  predicate DisputeDecidedBy(dispute: Option<Dispute>) {
    dispute.Some? && (dispute.value.status == UnderReview || dispute.value.status == Decided)
  }

  predicate HasRetry(ops: seq<Operation>, i: nat) {
    exists j | 0 <= j < |ops| :: ops[j].retryOf == Some(i)
  }

  /** The lookup by the unique idempotency key. */
  function FindKey(ops: seq<Operation>, key: OpKey): (r: Option<nat>)
    ensures r.Some? ==> r.value < |ops| && ops[r.value].key == key
    ensures r.None? <==> forall i | 0 <= i < |ops| :: ops[i].key != key
  {
    if ops == [] then None
    else
      var last := |ops| - 1;
      assert forall i | 0 <= i < last :: ops[..last][i] == ops[i];
      match FindKey(ops[..last], key)
      case Some(i) => Some(i)
      case None => if ops[last].key == key then Some(last) else None
  }

  function Log(d: Deal, actor: Option<Id>, command: CommandName, to: BookingStatus): Deal {
    d.(status := to, history := d.history + [Entry(actor, command, Some(d.status), to)])
  }

  function WithDeposit(d: Deal, status: DepositStatus): Deal
    requires d.deposit.Some?
  {
    d.(deposit := Some(d.deposit.value.(status := status)))
  }

  function VoidUnpaid(d: Deal): Deal {
    if d.deposit.Some? && d.deposit.value.status == Unpaid then WithDeposit(d, Voided) else d
  }

  function NewOperation(kind: OpKind, amount: nat, key: OpKey, retryOf: Option<nat>, at: Time): Operation {
    Operation(kind, amount, Waiting, key, retryOf, 0, at, None, None)
  }

  function HeldOperation(amount: nat, id: string, at: Time): Operation {
    Operation(HoldOp, amount, Succeeded, HoldKey, None, 1, at, None, Some(id))
  }

  /** The operation once the provider has moved its money under an id. */
  function Done(op: Operation, id: string): Operation {
    op.(status := Succeeded, processingUntil := None, providerId := Some(id))
  }

  // ---------------------------------------------------------------- booking lifecycle

  /** The selected booking of `confirm`, once every check passed. */
  function Chosen(d: Deal, lender: Id): Deal {
    Log(d, Some(lender), Confirm, Confirmed).(reason := None, expiresAt := None)
  }

  /** A competing request that `confirm` of another booking cancels. */
  function Outbid(d: Deal, lender: Id): Deal {
    VoidUnpaid(Log(d, Some(lender), CancelCompeting, Cancelled).(reason := Some(CompetingConfirmed), expiresAt := None))
  }

  /** A request that `blockUser` cancels: the deposit row is left as it is. */
  function Blocked(d: Deal, blocker: Id): Deal {
    Log(d, Some(blocker), BlockCounterparty, Cancelled).(reason := Some(ParticipantBlocked), expiresAt := None)
  }

  predicate LivePending(d: Deal, now: Time) {
    d.status == Pending && d.expiresAt.Some? && d.expiresAt.value > now
  }

  predicate Overdue(d: Deal, now: Time) {
    d.status == Pending && d.expiresAt.Some? && d.expiresAt.value <= now
  }

  function ExpireTx(d: Deal, now: Time): Tx<nat> {
    if !Overdue(d, now) then Commit(d, 0)
    else Commit(VoidUnpaid(Log(d, None, Expire, Cancelled).(reason := Some(PendingTimeout), expiresAt := None)), 1)
  }

  function CancelTx(d: Deal, actor: Id, fakePolicy: bool, now: Time): Tx<()> {
    if !IsParty(d, actor) then Abort(NotFound)
    else
      var reason := if actor == d.borrower then BorrowerCancelled else LenderDeclined;
      if d.status == Cancelled && d.reason == Some(reason) then Commit(d, ())
      else
        var confirmedFake := d.status == Confirmed && d.terms.fake;
        if confirmedFake && !fakePolicy then Abort(PolicyRequired)
        else if !LivePending(d, now) && !confirmedFake then Abort(InvalidTransition)
        else if confirmedFake && d.deposit.Some? && d.deposit.value.status != Unpaid && d.deposit.value.status != Held
        then Abort(DepositConflict)
        else
          var cancelled := Log(d, Some(actor), Cancel, Cancelled).(reason := Some(reason), expiresAt := None);
          if d.deposit.Some? && d.deposit.value.status == Held then
            var refund := NewOperation(RefundOp, d.deposit.value.amount, PreHandoverRefund, None, now);
            Commit(WithDeposit(cancelled, Resolving).(ops := d.ops + [refund]), ())
          else Commit(VoidUnpaid(cancelled), ())
  }

  // ---------------------------------------------------------------- payment

  function CheckoutTx(
    d: Deal, borrower: Id, fakePolicy: bool, key: string,
    checkout: ProviderCall, hold: ProviderCall, now: Time): Tx<ProviderResult>
  {
    if !fakePolicy then Abort(PolicyRequired)
    else if key == "" then Abort(KeyRequired)
    else if d.borrower != borrower then Abort(NotFound)
    else if d.status != Confirmed then Abort(InvalidTransition)
    else if !d.terms.fake then Abort(InvalidTerms)
    else if checkout.Thrown? then Abort(ProviderRefused)
    else if !checkout.result.Success? then Commit(d, checkout.result)
    else if d.payment.Some? then
      var paid := d.payment.value;
      if paid.userId != borrower || paid.status != PaymentSucceeded || paid.amount != d.terms.totalMinor ||
          paid.providerId == ""
      then Abort(PaymentConflict)
      else if d.deposit.Some? && d.deposit.value.status != Held then Abort(DepositConflict)
      else Commit(d, Success(paid.providerId))
    else if d.terms.depositMinor > 0 &&
            (d.deposit.None? || d.deposit.value.status != Unpaid || d.deposit.value.amount != d.terms.depositMinor)
    then Abort(DepositConflict)
    else if d.terms.depositMinor == 0 && d.deposit.Some? then Abort(UnexpectedDeposit)
    else
      var payment := Some(Payment(borrower, d.terms.totalMinor, PaymentSucceeded, checkout.result.providerId));
      if d.deposit.None? then Commit(d.(payment := payment), checkout.result)
      else if hold.Thrown? then Abort(ProviderRefused)
      else if !hold.result.Success? then Abort(HoldNotSucceeded)
      else
        var held := HeldOperation(d.terms.depositMinor, hold.result.providerId, now);
        Commit(WithDeposit(d, Held).(payment := payment, ops := d.ops + [held]), checkout.result)
  }

  // ---------------------------------------------------------------- acts

  function StageStatus(stage: Stage): BookingStatus {
    if stage == Handover then Confirmed else Active
  }

  function StageAuthor(d: Deal, stage: Stage): Id {
    if stage == Handover then d.lender else d.borrower
  }

  /**
   * `readiness`: the checklist is present. `verified`: the upload intent and its image verify before the
   * transaction. `usable`: the intent is still unused inside it.
   */
  function CreateActTx(d: Deal, actor: Id, stage: Stage, intent: Id, readiness: bool, verified: bool,
      usable: bool): Tx<()> {
    if stage in d.acts && d.acts[stage].author == actor && d.acts[stage].intent == intent then Commit(d, ())
    else if (stage == Handover) != readiness then Abort(BadRequest)
    else if !verified || !IsParty(d, actor) then Abort(NotFound)
    else if d.status != StageStatus(stage) then Abort(InvalidTransition)
    else if actor != StageAuthor(d, stage) then Abort(Forbidden)
    else if !usable then Abort(IntentUsed)
    else if stage in d.acts then Abort(ActExists)
    else Commit(d.(acts := d.acts[stage := Act(actor, intent, None)]), ())
  }

  function ConfirmActTx(d: Deal, actor: Id, stage: Stage, now: Time): Tx<nat> {
    if stage !in d.acts || !IsParty(d, actor) then Abort(NotFound)
    else
      var act := d.acts[stage];
      if act.author == actor then Abort(OwnAct)
      else if act.confirmedBy.Some? then
        if act.confirmedBy == Some(actor) then Commit(d, 0) else Abort(ActConfirmed)
      else if d.status != StageStatus(stage) then Abort(InvalidTransition)
      else if stage == Handover && d.terms.fake && !(d.payment.Some? && d.payment.value.status == PaymentSucceeded)
      then Abort(Unpayable)
      else if stage == Handover && d.terms.fake && d.terms.depositMinor > 0 &&
              !(d.deposit.Some? && d.deposit.value.status == Held)
      then Abort(Unpayable)
      else
        var signed := d.(acts := d.acts[stage := act.(confirmedBy := Some(actor))]);
        if stage == Handover then Commit(Log(signed, Some(actor), ConfirmHandover, Active), 0)
        else
          var dated :=
            if d.terms.fake && d.terms.windowMs.Some? && d.deposit.Some?
            then signed.(deposit := Some(d.deposit.value.(windowEndsAt := Some(now + d.terms.windowMs.value))))
            else signed;
          var returned := Log(dated, Some(actor), ConfirmReturn, Returned);
          if d.terms.depositMinor == 0 then CompleteTx(returned, now, ZeroDepositReturn)
          else Commit(returned, 0)
  }

  // ---------------------------------------------------------------- completion

  function Completion(trigger: Trigger): CommandName {
    match trigger
    case ZeroDepositReturn => CompleteAfterReturn
    case DisputeWindowClosed => CompleteAfterWindow
    case DisputeDecided => CompleteAfterDecision
    case DepositSettled => CompleteAfterSettled
  }

  function CompleteTx(d: Deal, now: Time, trigger: Trigger): Tx<nat> {
    if d.status != Returned then Commit(d, 0)
    else
      var done := Commit(Log(d, None, Completion(trigger), Completed), 1);
      match trigger
      case ZeroDepositReturn =>
        if d.deposit.Some? || d.dispute.Some? then Abort(UnexpectedDeposit) else done
      case DisputeWindowClosed =>
        if d.deposit.None? || d.deposit.value.windowEndsAt.None? || d.deposit.value.windowEndsAt.value > now ||
            d.dispute.Some?
        then Commit(d, 0) else done
      case DisputeDecided =>
        if d.deposit.None? || d.dispute.None? || d.dispute.value.status != Decided
        then Commit(d, 0) else done
      case DepositSettled =>
        if d.dispute.Some? && d.dispute.value.status != Decided then Commit(d, 0)
        else if d.deposit.None? || d.deposit.value.windowEndsAt.None? then Commit(d, 0)
        else if d.deposit.value.windowEndsAt.value > now && d.dispute.None? then Commit(d, 0)
        else if !FullySettled(d.deposit.value) then Abort(NotSettled)
        else done
  }

  // ---------------------------------------------------------------- disputes

  function OpenDisputeTx(d: Deal, actor: Id, now: Time): Tx<()> {
    if !IsParty(d, actor) then Abort(NotFound)
    else if d.status != Returned || d.deposit.None? || d.deposit.value.status != Held ||
            d.deposit.value.windowEndsAt.None? || d.deposit.value.windowEndsAt.value <= now || d.dispute.Some?
    then Abort(DisputeNotAllowed)
    else Commit(WithDeposit(d, Disputed).(dispute := Some(Dispute(actor, Open, None, "", 0, 0))), ())
  }

  /** The operation of one leg of a decision; a leg of zero has none. */
  function LegOperation(kind: OpKind, amount: nat, command: string, now: Time): seq<Operation> {
    if amount == 0 then [] else [NewOperation(kind, amount, Resolution(command, kind), None, now)]
  }

  predicate HasLeg(ops: seq<Operation>, kind: OpKind, amount: nat, command: string) {
    amount == 0 ||
    var found := FindKey(ops, Resolution(command, kind));
    found.Some? && ops[found.value].kind == kind && ops[found.value].amount == amount
  }

  function ResolveTx(
    d: Deal, admin: Id, fakePolicy: bool, decision: string, refund: int, release: int, command: string,
        now: Time): Tx<()>
  {
    if !fakePolicy then Abort(PolicyRequired)
    else if command == "" then Abort(KeyRequired)
    else if refund < 0 || release < 0 then Abort(WrongTotal)
    else if d.dispute.None? || d.deposit.None? then Abort(NotFound)
    else
      var dispute := d.dispute.value;
      if refund + release != d.deposit.value.amount then Abort(WrongTotal)
      else if DisputeDecidedBy(d.dispute) then
        if dispute.resolvedBy != Some(admin) || dispute.decision != decision ||
           dispute.refund != refund || dispute.release != release ||
           !HasLeg(d.ops, RefundOp, refund, command) || !HasLeg(d.ops, ReleaseOp, release, command)
        then Abort(OtherDecision)
        else Commit(d, ())
      else if d.status != Returned || d.deposit.value.status != Disputed then Abort(DisputeNotAllowed)
      else
        var legs := LegOperation(RefundOp, refund, command, now) + LegOperation(ReleaseOp, release, command, now);
        var decided := dispute.(status := Decided, resolvedBy := Some(admin), decision := decision, refund := refund,
            release := release);
        match CompleteTx(WithDeposit(d, Resolving).(ops := d.ops + legs, dispute := Some(decided)), now, DisputeDecided)
        case Commit(done, _) => Commit(done, ())
        case Abort(e) => Abort(e)
  }

  // ---------------------------------------------------------------- settlement

  /** One candidate of the deadline worker. */
  function DeadlineTx(d: Deal, now: Time): Tx<nat> {
    if d.deposit.None? || d.deposit.value.status != Held || d.deposit.value.windowEndsAt.None? ||
       d.deposit.value.windowEndsAt.value > now || d.status != Returned || d.dispute.Some?
    then Commit(d, 0)
    else if FindKey(d.ops, AutoRefund).Some? then Commit(d, 0)
    else
      var refund := NewOperation(RefundOp, d.deposit.value.amount, AutoRefund, None, now);
      match CompleteTx(WithDeposit(d.(ops := d.ops + [refund]), Resolving), now, DisputeWindowClosed)
      case Commit(done, _) => Commit(done, 1)
      case Abort(e) => Abort(e)
  }

  predicate IsDue(op: Operation, now: Time) {
    op.status == Waiting && op.nextAttemptAt <= now && (op.processingUntil.None? || op.processingUntil.value <= now)
  }

  predicate Claimable(d: Deal, i: nat, now: Time) {
    i < |d.ops| && IsDue(d.ops[i], now)
  }

  /** The lease a worker takes; `None` when the row is not due or leased. */
  function ClaimTx(d: Deal, i: nat, now: Time): Tx<Option<nat>> {
    if !Claimable(d, i, now) then Commit(d, None)
    else
      var op := d.ops[i].(processingUntil := Some(now + LEASE_MS), attempts := d.ops[i].attempts + 1);
      Commit(d.(ops := d.ops[i := op]), Some(op.attempts))
  }

  function RetryDelay(attempts: nat): (ms: int)
    ensures INITIAL_RETRY_MS <= ms <= MAX_RETRY_MS
  {
    var exponent := if attempts == 0 then 0 else if attempts - 1 > 10 then 10 else attempts - 1;
    var delay := INITIAL_RETRY_MS * Pow2(exponent);
    if delay < MAX_RETRY_MS then delay else MAX_RETRY_MS
  }

  predicate LegPaid(ops: seq<Operation>, kind: OpKind, amount: nat) {
    amount == 0 || exists i | 0 <= i < |ops| ::
        ops[i].kind == kind && ops[i].amount == amount &&
        ops[i].status == Succeeded
  }

  predicate DecisionPaid(ops: seq<Operation>, dispute: Option<Dispute>) {
    DisputeDecidedBy(dispute) ==>
      LegPaid(ops, RefundOp, dispute.value.refund) && LegPaid(ops, ReleaseOp, dispute.value.release)
  }

  /** What a worker that claimed operation `i` with lease end `token` writes back. */
  function ApplyTx(d: Deal, i: nat, token: Time, attempts: nat, outcome: ProviderResult, now: Time): Tx<()> {
    if i >= |d.ops| || d.deposit.None? || d.ops[i].status != Waiting || d.ops[i].processingUntil != Some(token)
    then Commit(d, ())
    else
      var op := d.ops[i];
      match outcome
      case TimedOut =>
        Commit(d.(ops := d.ops[i := op.(processingUntil := None, nextAttemptAt := now + RetryDelay(attempts))]), ())
      case Declined(_) =>
        Commit(d.(ops := d.ops[i := op.(status := Failed, processingUntil := None)]), ())
      case Success(id) =>
        var dep := d.deposit.value;
        if dep.status != Resolving then Commit(d, ())
        else
          var refunded := if op.kind == RefundOp then dep.refunded + op.amount else dep.refunded;
          var released := if op.kind == ReleaseOp then dep.released + op.amount else dep.released;
          if (op.kind != RefundOp && op.kind != ReleaseOp) || refunded + released > dep.amount then Abort(Overspend)
          else
            var ops := d.ops[i := Done(op, id)];
            var resolved := refunded + released == dep.amount && DecisionPaid(ops, d.dispute);
            var settled :=
              dep.(refunded := refunded, released := released, status := if resolved then Resolved else Resolving);
            var paid := d.(ops := ops, deposit := Some(settled));
            if !resolved then Commit(paid, ())
            else
              match CompleteTx(paid, now, DepositSettled)
              case Commit(done, _) => Commit(done, ())
              case Abort(e) => Abort(e)
  }

  predicate Retryable(d: Deal, i: nat) {
    i < |d.ops| && d.deposit.Some? && d.ops[i].status == Failed && d.deposit.value.status == Resolving &&
    DisputeDecidedBy(d.dispute) &&
    (d.ops[i].kind == RefundOp || d.ops[i].kind == ReleaseOp) &&
    var required := if d.ops[i].kind == RefundOp then d.dispute.value.refund else d.dispute.value.release;
    required > 0 && required == d.ops[i].amount
  }

  /** An administrator repeats a failed operation; the reply is the id of the repetition. */
  function RetryTx(d: Deal, i: nat, fakePolicy: bool, command: string, now: Time): Tx<nat> {
    if !fakePolicy then Abort(PolicyRequired)
    else if command == "" then Abort(KeyRequired)
    else if i >= |d.ops| then Abort(NotFound)
    else
      var op := d.ops[i];
      match FindKey(d.ops, RetryOf(i, command))
      case Some(e) =>
        if d.ops[e].retryOf != Some(i) || d.ops[e].kind != op.kind || d.ops[e].amount != op.amount
        then Abort(KeyReused)
        else Commit(d, e)
      case None =>
        if !Retryable(d, i) then Abort(NotRetryable)
        else if HasRetry(d.ops, i) then Abort(RetryExists)
        else Commit(d.(ops := d.ops + [NewOperation(op.kind, op.amount, RetryOf(i, command), Some(i), now)]), |d.ops|)
  }
}
