/** Statuses, the transition tables the repository publishes for them, and the small shared types. */
module Domain {

  type Id = nat

  // Instants and durations are integer milliseconds.
  type Time = int

  /** The greatest integer JavaScript holds exactly. */
  const MAX_SAFE: nat := 9007199254740991

  datatype Option<+T> = None | Some(value: T)

  datatype BookingStatus = Pending | Confirmed | Active | Returned | Completed | Cancelled

  datatype DepositStatus = Unpaid | Held | Disputed | Resolving | Resolved | Voided

  datatype DisputeStatus = Open | UnderReview | Decided

  datatype PaymentStatus = PaymentPending | PaymentSucceeded | PaymentFailed | PaymentCancelled

  datatype OpKind = HoldOp | CancelOp | RefundOp | ReleaseOp

  datatype OpStatus = Waiting | Succeeded | Failed

  datatype Stage = Handover | Return

  /** The exceptions of the services, by the code or message a caller sees. */
  datatype Error =
    | NotFound | BadRequest | Forbidden | PolicyRequired | KeyRequired
    | InvalidTransition | InvalidTerms | PaymentConflict | DepositConflict
    | HoldNotSucceeded | ProviderRefused | DisputeNotAllowed | WrongTotal | OtherDecision
    | KeyReused | NotRetryable | RetryExists | Overspend | NotSettled | UnexpectedDeposit
    | ActExists | ActConfirmed | OwnAct | IntentUsed | Unpayable | TooMany | OwnItem
    | DuplicateProviderId | LegalGateClosed | AcceptanceRequired | InteractionBlocked
    | CalendarConflict | BookingConflict | DepositNotSupported

  /** The statuses in which a booking keeps its dates reserved. */
  predicate Reserving(s: BookingStatus) {
    s == Confirmed || s == Active || s == Returned
  }

  /** The booking part of the published workflow contract. */
  predicate BookingMay(from: BookingStatus, to: BookingStatus) {
    match from
    case Pending => to == Confirmed || to == Cancelled
    case Confirmed => to == Cancelled || to == Active
    case Active => to == Returned
    case Returned => to == Completed
    case Completed => false
    case Cancelled => false
  }

  /** The dispute part of the published workflow contract. */
  predicate DisputeMay(from: DisputeStatus, to: DisputeStatus) {
    match from
    case Open => to == UnderReview || to == Decided
    case UnderReview => to == Decided
    case Decided => false
  }

  /** ALLOWED_TRANSITIONS of the deposit. */
  predicate DepositMay(from: DepositStatus, to: DepositStatus) {
    match from
    case Unpaid => to == Held || to == Voided
    case Held => to == Disputed || to == Resolving
    case Disputed => to == Resolving
    case Resolving => to == Resolved
    case Resolved => false
    case Voided => false
  }

  /** How far along its life a booking is; every transition of the contract raises it. */
  function Rank(s: BookingStatus): nat {
    match s
    case Pending => 0
    case Confirmed => 1
    case Active => 2
    case Returned => 3
    case Completed => 4
    case Cancelled => 4
  }

  function DepositRank(s: DepositStatus): nat {
    match s
    case Unpaid => 0
    case Held => 1
    case Disputed => 2
    case Resolving => 3
    case Resolved => 4
    case Voided => 4
  }

  function Pow2(n: nat): (p: nat)
    ensures p > 0
  {
    if n == 0 then 1 else 2 * Pow2(n - 1)
  }
}
