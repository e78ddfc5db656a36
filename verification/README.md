# A verified model of the rental marketplace's settlement core

This Dafny project models the part of the marketplace backend that holds other people's money and
dates, and proves what the services keep together rather than one at a time.

* `Domain.dfy`, `Deal.dfy` - the statuses with their published transition tables, and one booking with
  its payment, deposit, deposit operations, dispute, acts and history. Every database transaction on it
  is a function of those rows: it commits new rows or aborts with the error the service throws.
* `Journal.dfy`, `DealInvariant.dfy`, `DealSteps.dfy`, `Evolution.dfy` - retry chains and the sums they
  carry, the invariant of a booking, that every transaction keeps it, and what no transaction takes back.
* `Price.dfy`, `Market.dfy`, `MarketInvariant.dfy`, `MarketRuns.dfy` - all bookings with the calendar and
  the leases workers took. A worker may report any outcome of any lease at any later time, or never.
* `Settlement.dfy`, `Progress.dfy`, `Lifecycle.dfy`, `Replay.dfy`, `Worker.dfy`, `Backend.dfy`,
  `ProviderBooks.dfy`, `Examples.dfy` - the main results for every reachable state: conservation in the rows
  and at the provider, lease fencing, settlements that end, joint statuses, dates, caps, repeated calls, the
  services together with the provider and its ids, and the runs that show where a plausible promise fails.
* `Effects.dfy` - for every command, exactly when it takes effect on a reachable state and every column it then
  writes.
* `Store.dfy`, `Provider.dfy` - the tables as a class whose methods follow the services statement by
  statement, and the fake provider with its idempotency table. Each method is proved to take exactly the
  step the functions above describe.
* `Interleaving.dfy`, `Alone.dfy`, `Locks.dfy`, `Deadlock.dfy`, `Refinement.dfy` - the same transactions split
  at their advisory locks, reads and commits, under any lock hash; each of them run alone; the lock order and
  when it fails; and how the split confirmation shows the whole one.
* `Terms.dfy`, `TermsSpelled.dfy`, `Writer.dfy`, `Legal.dfy` - the terms snapshot: reader over arbitrary JSON,
  what exactly it accepts, printer, the writer in `create`, and the legal gate before it.
* `Base32.dfy`, `Sessions.dfy`, `SessionCalls.dfy`, `Pages.dfy`, `Rubles.dfy`, `Text.dfy` - the TOTP secret's text,
  refresh-token families over Redis, the chat's keyset pages, and the operator's rouble fields.

Where a promise does not hold of the code, the model keeps the code and states when it does hold:

* A settlement under way can end RESOLVED exactly when its dispute was decided or an operation still waits;
  worker and retry refuse while the fake policy is off. A declined refund without a decision is stuck for ever
  (`Settlement.ProceedsIff`, `Progress.SettlesIff`, `Settlement.StuckStays`, `Examples.StuckRun`).
* COMPLETED means that the settlement was scheduled, not that it is done: a completion leaves the deposit
  settled exactly when the terms ask for none (`Lifecycle.CompletionSettledIff`,
  `Examples.CompletedUnsettledRun`), although the repository's plan
  (docs/superpowers/plans/2026-09-02-safe-deal-deposit.md, line 366) has an unresolved deposit block completion.
* A history is one path when each transaction is one step (`Lifecycle.HistoryIsPath`); with transactions
  interleaved it is one at the end of a run exactly when no commit logged a change from an overtaken status
  (`Interleaving.HistoryIsPathIff`, `Interleaving.OvertakenCancel`, `Interleaving.CancelOvertaken`).
* The conflict check of `confirm` cannot fire when transactions are whole and share a clock
  (`Lifecycle.ConfirmNeverConflicts`). When two confirmations read their clocks apart it fires exactly for a
  request that had run out by the first clock and not by the second one
  (`Interleaving.OtherClockMeetsReservedIff`, `Interleaving.OtherClockReached`).
* Reuse of a rotated refresh token ends its session exactly while that token has not expired; a state in which
  it no longer does is reached (`Sessions.ReuseKillsIff`, `Sessions.ExpiredReuseSpares`).
* Transactions can deadlock when lock keys collide. While the keys taken first - of actors, pairs and commands -
  share no lock, they can exactly when two plans take the same two locks in opposite orders
  (`Deadlock.DeadlockIff`); one collision of a booking with the item of a later booking is enough
  (`Deadlock.OneCollisionStops`), while items that share a lock with items do no harm
  (`Locks.NoDeadlockWhenHarmless`). Under any hash at all they can exactly when they can stand in a circle along
  their plans (`Deadlock.DeadlockStands`).
* The unique columns of the provider's ids refuse nothing while digests and key texts do not collide and the
  provider keeps its table (`Backend.CheckOutNeverRollsBack`, `Backend.WorkNeverRollsBack`). The table is lost with
  the process; after that a checkout is rolled back exactly when it would store a payment under a key another
  payment was charged under (`Backend.CheckOutRollsBackIff`, `Examples.RepeatedIdRun`).

## Model

| member | source | states |
|---|---|---|
| Settlement.Conservation | backend/src/payments/deposit-operation.processor.ts:226-323 | in every reachable state a RESOLVING or RESOLVED deposit is refunded + released + waiting + failed-without-retry; RESOLVED exactly when the last two are zero; the totals are what succeeded operations moved |
| ProviderBooks.OperationsMoved | backend/src/payments/deposit-operation.processor.ts:122-129 | as long as the provider keeps its table every succeeded operation has its entry there: for this deposit, of the operation's own kind and amount, answered with the id stored |
| ProviderBooks.PaymentsCharged | backend/src/payments/deposit.service.ts:229-236 | and every stored payment has its charge: for this booking, of exactly the amount stored, answered with the id stored |
| ProviderBooks.DepositMoved | backend/src/payments/deposit-operation.processor.ts:226-323 | what a deposit row says was refunded and released is what the provider has moved under the keys of its succeeded operations |
| ProviderBooks.ProviderNeverOverpays | backend/src/payments/deposit-operation.processor.ts:118-146 | with the provider's own answers, lost ones included, everything it ever moved for a deposit is at most the deposit, and once RESOLVED exactly the refunds and releases of the row |
| Settlement.ResolvedAsDecided | backend/src/payments/deposit-operation.processor.ts:249-311 | a RESOLVED deposit was paid out part by part as decided, or went back whole |
| Settlement.RetryChains | backend/src/payments/deposit.service.ts:391-464 | retries form disjoint ascending chains of one kind and amount in which every operation but the last failed |
| Settlement.ReportsCommit | backend/src/payments/deposit-operation.processor.ts:156-335 | the transaction of any report commits; a success of a leased waiting operation always meets a RESOLVING deposit, never overspends, credits that operation once, and resolves exactly when nothing is outstanding |
| Settlement.ReportTakesEffectIff | backend/src/payments/deposit-operation.processor.ts:148-335 | a report changes something exactly when its lease is the current one and it does not store a provider id some operation has; none aborts for any other reason |
| Settlement.RolledBackForEver | backend/prisma/schema.prisma:483-483 | a success rolled back for its id is rolled back after every run and under every lease |
| Settlement.ProceedsIff | backend/src/payments/deposit.service.ts:353-433 | a RESOLVING deposit can proceed exactly when the policy is on and its dispute was decided or an operation still waits |
| Progress.SettlesIff | backend/src/payments/deposit.service.ts:346-464 | a RESOLVING deposit can become RESOLVED in some run exactly when it can proceed |
| Progress.Settle | backend/src/payments/deposit-operation.processor.ts:70-335 | from every reachable state in which a settlement can proceed, retries, claims and successes lead to RESOLVED, with the provider's own ids where all stored ids are |
| Progress.SettlesHonestlyIff | backend/src/payments/deposit-operation.processor.ts:70-335 | the same with successes that are the provider's own answers only, wherever all stored ids are |
| Progress.DisputeSettles | backend/src/payments/dispute.service.ts:263-344 | every disputed deposit can be decided into any two parts and then paid out in exactly these |
| Progress.EveryDepositEnds | backend/src/payments/deposit.service.ts:71-464 | from every reachable state some run resolves a deposit that was ever held, unless its settlement is stuck |
| Settlement.RepeatAccepted | backend/src/payments/deposit.service.ts:391-464 | an open failed leg of a decided dispute is taken over under any unused key |
| Settlement.StuckStays | backend/src/payments/deposit.service.ts:413-423 | deposit and operations of a settlement that cannot proceed are the same after every run, and it still cannot proceed |
| Settlement.TokensIncrease | backend/src/payments/deposit-operation.processor.ts:89-107 | lease tokens of one operation strictly increase, for any number of workers with any clocks |
| Settlement.StaleReportIsIdle | backend/src/payments/deposit-operation.processor.ts:156-170 | a worker whose lease was overtaken changes nothing, whatever it reports |
| Settlement.DecidedOnce | backend/src/payments/deposit-operation.processor.ts:202-276 | an operation leaves PENDING at most once: its outcome and amount survive every later command |
| Settlement.RowOk | backend/src/payments/deposit-operation.processor.ts:70-335 | every row of every reachable state satisfies the invariant of one booking |
| DealSteps.ApplyKeeps | backend/src/payments/deposit-operation.processor.ts:148-335 | applying any outcome commits and keeps money, statuses, acts and history consistent |
| DealSteps.SuccessKeeps | backend/src/payments/deposit-operation.processor.ts:226-334 | a success credits exactly the operation and leaves the booking where it is |
| DealSteps.AmountsAgreeWithLegs | backend/src/payments/deposit-operation.processor.ts:249-311 | the amounts reach the deposit exactly when every leg of the decision was paid, so the two tests of the code agree |
| DealSteps.SettledTriggerIdle | backend/src/payments/deposit.service.ts:110-135 | the settled trigger never moves a booking: it was completed when its settlement was scheduled |
| DealSteps.CancelKeeps | backend/src/booking/booking.service.ts:610-690 | a cancellation keeps the invariant, with the refund it schedules |
| DealSteps.CheckoutKeeps | backend/src/payments/deposit.service.ts:183-323 | a checkout keeps the invariant under every answer of the provider |
| DealSteps.ConfirmActKeeps | backend/src/booking/booking-act.service.ts:160-329 | signing an act keeps the invariant, and its completion never throws |
| DealSteps.ResolveKeeps | backend/src/payments/dispute.service.ts:199-344 | a decision keeps the invariant |
| DealSteps.LegsSettle | backend/src/payments/dispute.service.ts:273-300 | the decided legs open one chain each and together carry the whole deposit |
| DealSteps.DeadlineKeeps | backend/src/payments/deposit-deadline.service.ts:52-105 | the automatic refund keeps the invariant and always commits |
| DealSteps.RetryKeeps | backend/src/payments/deposit.service.ts:346-464 | a retry keeps the invariant |
| DealSteps.ClaimKeeps | backend/src/payments/deposit-operation.processor.ts:89-116 | a claim commits and keeps the invariant |
| DealInvariant.WithinDeposit | backend/src/payments/deposit-operation.processor.ts:245-251 | no waiting operation can overdraw its deposit, so the overspend error is unreachable |
| DealInvariant.NothingOpenPaysLegs | backend/src/payments/deposit-operation.processor.ts:281-309 | with nothing outstanding every nonzero leg has a succeeded operation of its whole amount |
| DealInvariant.HistoryBound | backend/src/common/domain/workflow-contract.ts:38-92 | a history has one to five entries |
| Journal.SuccessMoves | backend/src/payments/deposit-operation.processor.ts:249-323 | a success moves its amount from outstanding to exactly its own kind |
| Journal.FailKeeps | backend/src/payments/deposit-operation.processor.ts:202-217 | a decline leaves the money where it was |
| Journal.RetryTakesOver | backend/src/payments/deposit.service.ts:436-452 | a retry takes over exactly the money of the operation it repeats |
| Journal.RootOpens | backend/src/payments/dispute.service.ts:453-479 | the first operation of a kind opens a chain and adds its amount to the outstanding money |
| Lifecycle.JointStatus | backend/src/payments/deposit.service.ts:71-135 | which booking, deposit, payment and dispute statuses stand together in reachable states |
| Lifecycle.CompletionSettledIff | backend/src/payments/deposit.service.ts:71-135 | a command that completes a booking leaves its deposit settled exactly when the terms ask for no deposit |
| Lifecycle.OneSettlementPath | backend/src/payments/deposit-deadline.service.ts:77-98 | refund before handover, automatic refund and decision exclude each other, and each leg has one first operation |
| Lifecycle.StepsFollowTables | backend/src/payments/deposit-state.ts:9-18 | every command writes deposit and dispute statuses the tables allow and only extends histories |
| Lifecycle.HistoryIsPath | backend/src/common/domain/workflow-contract.ts:38-68 | with whole transactions a history is one path of the booking contract, at most five entries, to the current status |
| Lifecycle.ActsSigned | backend/src/booking/booking-act.service.ts:160-329 | no booking is ACTIVE without a lender-authored, borrower-signed handover, nor RETURNED or COMPLETED without a borrower-authored, lender-signed return |
| Lifecycle.NoSharedDay | backend/src/booking/booking.service.ts:408-443 | two reserving bookings of an item share no day, nor a day the owner closed |
| Lifecycle.RequestsAvoidReserved | backend/src/booking/booking.service.ts:186-206 | in every reachable state no live request asks for a day a booking of the item holds |
| Lifecycle.ConfirmNeverConflicts | backend/src/booking/booking.service.ts:425-443 | with whole transactions and one clock the conflict branch of confirm is unreachable |
| Lifecycle.PendingCaps | backend/src/booking/booking.service.ts:99-110 | every day of an item has at most 20 live requests and every borrower at most 5 |
| Lifecycle.CompetitorsPerDay | backend/src/booking/booking.service.ts:208-221 | each day of a booking brings in at most 19 competitors, by induction over its days |
| Lifecycle.ConfirmCancelsFew | backend/src/booking/booking.service.ts:445-476 | confirming cancels at most 19 requests per day and at most 570 |
| Evolution.ExecKeeps | backend/src/payments/deposit.service.ts:71-464 | every command on one booking keeps its invariant |
| Evolution.ExecEvolves | backend/src/payments/deposit-state.ts:9-18 | every command follows the status tables and takes back nothing that was decided, signed, paid or logged |
| Effects.DecideIff | backend/src/payments/dispute.service.ts:199-344 | a DISPUTED deposit is decided exactly under policy, with a key, into two parts that make it up; the booking completes and each nonzero part is queued |
| Effects.DecideAgainIff | backend/src/payments/dispute.service.ts:242-262 | a decided dispute is answered as done exactly to its own administrator, decision, amounts and key, and never changed |
| Effects.ComplainIff | backend/src/payments/dispute.service.ts:103-151 | either party opens the dispute of a returned booking exactly until its window ends |
| Effects.CloseWindowIff | backend/src/payments/deposit-deadline.service.ts:52-105 | an undisputed return is refunded in full exactly from the end of its window on |
| Effects.WindowSplits | backend/src/payments/deposit-deadline.service.ts:42-80 | at every moment after the return exactly one of the two is possible |
| Effects.CancelIff | backend/src/booking/booking.service.ts:591-742 | who may cancel what and when, and what becomes of the deposit |
| Effects.ExpireIff | backend/src/booking/booking-expiry.service.ts:59-114 | a request runs out exactly from its expiry on |
| Effects.PayIff | backend/src/payments/deposit.service.ts:183-323 | a checkout stores something exactly for the borrower's first successful one, and then payment, hold and deposit |
| Effects.MakeActIff | backend/src/booking/booking-act.service.ts:59-158 | the side that hands the thing over writes the act of its stage, once, with its checklist and an unused image |
| Effects.SignIff | backend/src/booking/booking-act.service.ts:160-329 | the other side signs: a handover once paid; a return opens the window or, without deposit, completes |
| Effects.RepeatIff | backend/src/payments/deposit.service.ts:346-464 | exactly a failed operation of a decided dispute that nobody repeated is repeated |
| Effects.LeaseIff | backend/src/payments/deposit-operation.processor.ts:89-116 | a lease is granted exactly on a waiting operation that is due and free |
| Effects.ReportIs | backend/src/payments/deposit-operation.processor.ts:148-323 | a timeout puts off, a decline fails, a success credits exactly the leased operation |
| Effects.DelayDoubles | backend/src/payments/deposit-operation.processor.ts:170-174 | half a minute at first, doubled by every further attempt, an hour at most |
| Effects.OnlyItsRow | backend/src/booking/booking.service.ts:591-742 | a command on one booking touches no other row |
| Effects.ConfirmIff | backend/src/booking/booking.service.ts:373-476 | a live request is confirmed by its lender exactly unless the owner closed its days; every overlapping live request is cancelled and voided, everything else stays |
| Effects.BookIff | backend/src/booking/booking.service.ts:65-330 | every condition on a new booking, both ways, and its first rows |
| Effects.BlockIff | backend/src/users/users.service.ts:154-200 | a block cancels exactly the live requests between the two |
| Effects.BlockHolds | backend/src/booking/booking.service.ts:155-169 | while a block stands no request between the two is waiting in any later state |
| Effects.AddPeriodIff | backend/src/booking/booking-availability.service.ts:70-128 | days are closed exactly where nobody has reserved or closed any |
| MarketInvariant.LeaseFences | backend/src/payments/deposit-operation.processor.ts:89-107 | after a grant, tokens of an operation still ascend and no older lease can be accepted |
| MarketInvariant.ReportFences | backend/src/payments/deposit-operation.processor.ts:172-200 | after any report, timeouts included, tokens still ascend and no older lease can be accepted |
| MarketInvariant.StepKeeps | backend/src/booking/booking.service.ts:65-742 | a command that selects nothing keeps rows consistent, requests unique, dates clear and caps |
| MarketRuns.BookCaps | backend/src/booking/booking.service.ts:99-110 | the overlap count of create is enough for the cap of every single day |
| MarketRuns.BookClears | backend/src/booking/booking.service.ts:186-206 | a new request overlaps no reserved dates |
| MarketRuns.ConfirmKeeps | backend/src/booking/booking.service.ts:373-476 | confirming with its competitors cancelled keeps all dates disjoint |
| MarketRuns.BlockKeeps | backend/src/users/users.service.ts:126-200 | blocking a user keeps the market invariant |
| MarketRuns.NextKeeps | backend/src/booking/booking.service.ts:65-742 | every command keeps the market invariant |
| MarketRuns.RunKeeps | backend/src/booking/booking.service.ts:65-742 | every run keeps the market invariant |
| MarketRuns.RunEvolves | backend/src/payments/deposit-state.ts:9-18 | over a whole run nothing that was decided, signed or logged is taken back |
| Replay.CancelAgain | backend/src/booking/booking.service.ts:613-618 | a repeated cancellation changes nothing after any run |
| Replay.SignAgain | backend/src/booking/booking-act.service.ts:202-213 | a repeated act confirmation changes nothing after any run |
| Replay.CheckoutAgain | backend/src/payments/deposit.service.ts:183-264 | a checkout that returned, paid, declined or timed out, repeated with its key after any run and any provider requests changes nothing, and returns what it returned whenever it returns |
| Replay.ResolveAgain | backend/src/payments/dispute.service.ts:199-262 | a repeated decision changes nothing after any run, whether the policy is still on or not |
| Replay.RetryAgain | backend/src/payments/deposit.service.ts:353-405 | after any run a repeated retry changes nothing, and returns the retry it created while the policy is on |
| Replay.BookAgain | backend/src/booking/booking.service.ts:81-97 | a repeated booking request makes no second booking and returns the first |
| Replay.CreateActReplay | backend/src/booking/booking-act.service.ts:64-76 | creating the same act again returns it |
| Replay.FindKeyStable | backend/src/payments/deposit.service.ts:391-405 | what a key names never changes as operations are appended |
| Examples.StuckRun | backend/src/payments/deposit.service.ts:413-423 | a reachable state whose declined refund nobody can repeat |
| Examples.CompletedUnsettledRun | backend/src/payments/deposit-deadline.service.ts:95-104 | a reachable COMPLETED booking whose deposit is still RESOLVING |
| Worker.ReexecutedSame | backend/src/payments/deposit-operation.processor.ts:89-146 | whoever claims an operation, at any time, sends the same request, and gets the answer it was given first |
| Worker.KeysDistinct | backend/prisma/schema.prisma:482-482 | the idempotency keys of a deposit's operations are pairwise different |
| Worker.OperationIdsDistinct | backend/src/payments/fake-safe-deal.provider.ts:56-116 | the provider never gives two operations, of one booking or of two, the same id, as long as keys and digests do not collide |
| Worker.PaymentIdsDistinct | backend/src/payments/fake-safe-deal.provider.ts:56-116 | nor two bookings the same payment id, whatever keys they are charged under |
| Worker.SuccessNeverCollides | backend/prisma/schema.prisma:483-483 | in every run with the provider's own answers the unique column refuses no success of a waiting operation, across restarts of the provider |
| Worker.AlwaysUnique | backend/prisma/schema.prisma:483-483 | whatever the provider answers, no reachable state holds one provider id twice |
| Backend.CheckOutRollsBackIff | backend/prisma/schema.prisma:709-709 | with services and provider running together a checkout is rolled back exactly when it would store a payment under a key another payment was charged under; its hold's id never collides |
| Backend.CheckOutNeverRollsBack | backend/src/payments/fake-safe-deal.provider.ts:56-78 | as long as the provider keeps its table no checkout of any run is rolled back |
| Backend.WorkNeverRollsBack | backend/src/payments/deposit-operation.processor.ts:118-146 | nor is a worker's success, restarts or not |
| Backend.PaymentIdTakenIff | backend/src/payments/fake-safe-deal.provider.ts:98-116 | a payment id is stored exactly when its key was charged for a stored payment |
| Backend.HoldIdNew | backend/src/payments/deposit.service.ts:282-323 | the id of a first hold is stored nowhere |
| Examples.RepeatedIdRun | backend/src/payments/fake-safe-deal.provider.ts:40-40 | the table is in memory: a run with a restart in which a second borrower's checkout is rolled back |
| Store.Store.CancelPending | backend/src/booking/booking.service.ts:591-742 | writes exactly the rows of the cancellation and no other row |
| Store.Store.ExpireOne | backend/src/booking/booking-expiry.service.ts:59-114 | cancels one overdue request, and counts it |
| Store.Store.ExpirePending | backend/src/booking/booking-expiry.service.ts:47-117 | the loop expires every overdue request, counts each once, and keeps the store valid |
| Store.Store.CompleteBookingAfterReturn | backend/src/payments/deposit.service.ts:71-168 | each trigger completes, refuses or throws by its own conditions |
| Store.Store.Checkout | backend/src/payments/deposit.service.ts:183-330 | charges, replays or settles a checkout, with the provider asked exactly for the charge and, on a first charge, the hold; rolls back when a provider id is stored already |
| Store.Store.ChargeAndSettle | backend/src/payments/deposit.service.ts:229-330 | what the charge leads to: a thrown or unpaid answer writes nothing, a success is settled |
| Store.Store.SettleCheckout | backend/src/payments/deposit.service.ts:241-323 | the stored payment is repeated, or the deposit held and the payment recorded, or nothing written because an id is not new |
| Store.Store.HoldAndRecord | backend/src/payments/deposit.service.ts:265-323 | a first charge holds the deposit if there is one and records the payment |
| Store.Store.RetryFailedOperation | backend/src/payments/deposit.service.ts:346-464 | appends at most one retry, or answers with the one the key made |
| Store.Store.CreateAct | backend/src/booking/booking-act.service.ts:59-158 | records one act per stage, by the right side and in the right status; exactly then it uses the upload intent up and keeps the checklist, the object key and the hash of the image |
| Store.Store.RecordAct | backend/src/booking/booking-act.service.ts:107-145 | the act, its evidence and the used intent are written together |
| Store.Store.ConfirmAct | backend/src/booking/booking-act.service.ts:160-329 | signs an act, moves the booking, opens the dispute window, completes a return without deposit |
| Store.Store.ActCompletes | backend/src/booking/booking-act.service.ts:312-324 | in a valid store the completion inside an act confirmation never throws |
| Store.Store.OpenDispute | backend/src/payments/dispute.service.ts:103-151 | opens the one dispute of a held deposit inside its window |
| Store.Store.ResolveDispute | backend/src/payments/dispute.service.ts:199-344 | decides once, with one operation per nonzero leg |
| Store.Store.CreateResolutionOperation | backend/src/payments/dispute.service.ts:453-479 | one operation per nonzero leg |
| Store.Store.HasResolutionOperations | backend/src/payments/dispute.service.ts:481-515 | true exactly when both legs have their operation; the loop skips zero legs |
| Store.Store.DeadlineOne | backend/src/payments/deposit-deadline.service.ts:52-107 | schedules the refund of one closed window |
| Store.Store.ScheduleRefund | backend/src/payments/deposit-deadline.service.ts:77-104 | one refund of the whole deposit, a RESOLVING deposit and the completion, which never throws |
| Store.Store.ProcessDue | backend/src/payments/deposit-deadline.service.ts:42-109 | the loop schedules every held deposit whose window closed, counts each once, and keeps the store valid |
| Store.HeldIsScheduled | backend/src/payments/deposit-deadline.service.ts:43-80 | a selected deposit is always scheduled: the re-checks under the lock never skip it |
| Store.Store.ClaimOperation | backend/src/payments/deposit-operation.processor.ts:89-116 | grants a lease exactly when the operation is due and free |
| Store.Store.DecisionLegsPaid | backend/src/payments/deposit-operation.processor.ts:286-309 | true exactly when every nonzero leg has a succeeded operation; the loop stops at the first that has none |
| Store.Store.ApplyOutcome | backend/src/payments/deposit-operation.processor.ts:148-335 | applies a timeout, decline or success to the leased operation only, and rolls back a success whose id is stored already |
| Store.Store.ApplySuccess | backend/src/payments/deposit-operation.processor.ts:226-335 | a success is refused, rolled back or credited |
| Store.Store.CreditSuccess | backend/src/payments/deposit-operation.processor.ts:229-334 | credits the leg, resolves when it was the last one, then tries the completion |
| Store.Store.ProcessOne | backend/src/payments/deposit-operation.processor.ts:89-146 | claim, provider call and apply are two commands of the model exactly when the operation is due and free, with the provider's answer to the operation's own request, and else none |
| Store.Store.FindPending | backend/src/payments/deposit-operation.processor.ts:73-82 | at most fifty due operations, the earliest first, and every one left out is no earlier |
| Store.OthersStayDue | backend/src/payments/deposit-operation.processor.ts:84-86 | processing one operation leaves every other one of the batch due, other legs of the same deposit included |
| Store.Store.ProcessPending | backend/src/payments/deposit-operation.processor.ts:70-87 | with the policy on exactly the batch of due operations is claimed, each once and in order; the run keeps the store valid; with it off nothing happens |
| Store.Store.Create | backend/src/booking/booking.service.ts:65-330 | refuses at the legal gate, or books, repeats or refuses as the model does with the approved item of an owner in good standing, for one command |
| Legal.GateRefusal | backend/src/booking/booking.service.ts:880-926 | the gate lets a request pass exactly when both documents are in force and the request accepts both of them in these versions |
| Legal.InForce | backend/src/booking/booking.service.ts:880-911 | documents are in force exactly when both trimmed versions are approved |
| Legal.ApprovedIsFilled | backend/src/booking/booking.service.ts:903-911 | an approved version is never blank |
| Store.Store.Confirm | backend/src/booking/booking.service.ts:373-476 | selects one request and cancels its competitors in one step |
| Store.Store.BlockPair | backend/src/users/users.service.ts:126-228 | records the block and cancels exactly the live requests between the two users; refuses and changes nothing for oneself and for a user who is not there in good standing |
| Store.Store.AddUnavailable | backend/src/booking/booking-availability.service.ts:70-128 | adds a period exactly when its dates are free |
| Store.Store.RemoveUnavailable | backend/src/booking/booking-availability.service.ts:130-148 | removes a period of the owned item |
| Store.Store.QueriesAgree | backend/src/booking/booking.service.ts:154-221 | the queries over the tables select what the model selects |
| Store.Store.KnownRequest | backend/src/booking/booking.service.ts:81-97 | at most one row has the borrower and request id |
| Store.Store.Perform | backend/src/booking/booking.service.ts:591-742 | every step of a participant takes one step of the model and keeps a valid store valid |
| Store.Store.PerformAdmin | backend/src/payments/dispute.service.ts:199-344 | so does every step of an administrator |
| Store.Store.PerformCreateAct | backend/src/booking/booking-act.service.ts:59-158 | so does a new act, with what the intent row says |
| Store.Store.PerformCheckout | backend/src/payments/deposit.service.ts:183-330 | so does a checkout, with the answers the provider gives to it |
| Store.EachKeeps | backend/src/booking/booking-expiry.service.ts:56-116 | one transaction per candidate keeps the invariant in any order |
| Provider.FakeSafeDealProvider.Execute | backend/src/payments/fake-safe-deal.provider.ts:56-78 | answers from the table, or records a fresh answer |
| Provider.SameAnswerAgain | backend/src/payments/fake-safe-deal.provider.ts:65-74 | a request once answered is answered the same for ever |
| Provider.FirstAnswer | backend/src/payments/fake-safe-deal.provider.ts:56-116 | a request under a new key is answered as it asks to be and recorded; blank keys and empty amounts are refused |
| Provider.KeyNotReused | backend/src/payments/fake-safe-deal.provider.ts:66-71 | a used key answers no other request |
| Provider.TableGrows | backend/src/payments/fake-safe-deal.provider.ts:65-77 | entries are never rewritten |
| Provider.IdsDistinct | backend/src/payments/fake-safe-deal.provider.ts:98-116 | different requests get different ids as long as digests do not collide |
| Price.SafeDealPrice | backend/src/payments/safe-deal-price.ts:17-42 | fee + payout = rental, rental + deposit = total; refused exactly for a rental of zero or less or a negative deposit |
| Price.FeeBounds | backend/src/payments/safe-deal-price.ts:28-31 | the fee is within half a kopeck of one percent and at most the rental |
| Price.FeeMonotone | backend/src/payments/safe-deal-price.ts:28-31 | a dearer rental never costs a smaller fee |
| Price.FeeSplit | backend/src/payments/safe-deal-price.ts:28-31 | splitting a rental moves the fee by at most one kopeck |
| Price.ParsePeriod | backend/src/booking/booking-period.ts:12-41 | accepted exactly for 1 to 30 days beginning within 90 days from today |
| TermsSnapshot.ReaderSound | backend/src/booking/booking-terms.ts:56-187 | whatever the reader accepts satisfies all ledger identities, the decimals, the consent rules and the deposit-terms rule |
| TermsSnapshot.PrintReadIff | backend/src/booking/booking-terms.ts:50-187 | a printed snapshot is read back equal exactly when it is well formed |
| TermsSnapshot.ReadIdempotent | backend/src/booking/booking-terms.ts:56-187 | reading, printing and reading again gives the same value, for any JSON and legacy offline snapshots too |
| TermsSpelled.ReadIff | backend/src/booking/booking-terms.ts:56-187 | for every JSON and snapshot: the reader answers with the snapshot exactly when it is well formed and the JSON spells it, field by field |
| TermsSpelled.LegacyRead | backend/src/booking/booking-terms.ts:80-101 | an offline snapshot without readable ledger and without window is read like one that has them |
| TermsSpelled.ReadBoundIff | backend/src/booking/booking-terms.ts:189-210 | a snapshot is accepted for exactly the lender, days, borrower and total it was made for |
| TermsSnapshot.PrintRead | backend/src/booking/booking-terms.ts:50-187 | every well-formed snapshot is read back from its JSON |
| TermsSnapshot.MinorUnits | backend/src/booking/booking-terms.ts:341-350 | an accepted decimal is within a millionth of its whole kopecks |
| TermsSnapshot.MinorExact | backend/src/booking/booking-terms.ts:341-350 | each decimal names one number of kopecks |
| TermsSnapshot.MoneyRead | backend/src/booking/booking-terms.ts:212-237 | a consistent ledger is read back from its record |
| TermsSnapshot.WindowRead | backend/src/booking/booking-terms.ts:239-256 | deposit terms are read back, null as null |
| TermsSnapshot.ConsentSound | backend/src/booking/booking-terms.ts:270-292 | versions and consent are both there and equal, or both absent |
| TermsWriter.WrittenReadBack | backend/src/booking/booking.service.ts:223-295 | the snapshot create writes is read back equal and bound to its booking in both scenarios, exactly when the item has its texts and coordinates |
| TermsWriter.WrittenLedger | backend/src/booking/booking.service.ts:223-278 | the written ledger and decimals agree and balance |
| TermsWriter.WriteIff | backend/src/booking/booking.service.ts:223-295 | a snapshot is written exactly for whole kopecks within the policy and the safe integers, and what it holds |
| TermsWriter.WriteFractions | backend/src/payments/money-minor.ts:3-10 | a price or deposit with a fraction of a kopeck is refused |
| TermsWriter.TermsAgree | backend/src/booking/booking.service.ts:223-256 | the booking model starts from the terms the snapshot carries and refuses where the writer throws |
| TermsWriter.Kopecks | backend/src/payments/money-minor.ts:3-10 | the whole kopecks of a decimal; an error exactly when there is a fraction of a kopeck |
| TermsWriter.Roubles | backend/src/payments/money-minor.ts:12-14 | exactly the hundredth part of the kopecks |
| TermsWriter.ListingVersionFilled | backend/src/booking/booking.service.ts:281-284 | the listing version is never blank |
| Interleaving.NoDayTwice | backend/src/booking/booking.service.ts:379-443 | under every interleaving of locks, reads and commits and every lock hash no day is held by two bookings, by a booking and a closed period, or by two periods |
| Interleaving.NextKeeps | backend/src/booking/booking.service.ts:379-503 | each step keeps what every running transaction relies on |
| Interleaving.OthersKeep | backend/src/booking/booking-availability.service.ts:76-125 | a commit breaks nothing another transaction has checked under its locks |
| Interleaving.SelectKeeps | backend/src/booking/booking.service.ts:397-486 | the commit of confirm finds its request still pending and its dates still free |
| Interleaving.StatusesMoveForward | backend/src/common/domain/workflow-contract.ts:38-68 | under every interleaving a status moves by the contract and never back |
| Interleaving.HistoryStaysPath | backend/src/booking/booking.service.ts:500-523 | a step keeps a history a path exactly when it logs no change from an overtaken status; an expiry, whose update is conditional, never does |
| Interleaving.HistoryIsPathIff | backend/src/booking/booking.service.ts:500-523 | over a whole run from nothing a history is a path at the end exactly when no step logged a change from an overtaken status |
| Interleaving.OvertakenCancel | backend/src/booking/booking.service.ts:465-523 | a rival confirmed while a cancellation is under way makes that history log PENDING twice |
| Interleaving.CancelOvertaken | backend/src/booking/booking.service.ts:591-640 | such a state is reached |
| Interleaving.AloneIsAtomic | backend/src/booking/booking.service.ts:373-523 | run undisturbed, the split confirm does exactly what the whole one does |
| Alone.ChangeAlone | backend/src/booking/booking.service.ts:500-523 | run undisturbed, a change of one booking writes and logs it from the status it read |
| Alone.ExpireAlone | backend/src/booking/booking-expiry.service.ts:59-114 | an expiry cancels and logs exactly a request that has run out |
| Alone.CloseAlone | backend/src/booking/booking-availability.service.ts:70-128 | the calendar adds its period exactly where nothing overlaps |
| Alone.BlockAlone | backend/src/users/users.service.ts:160-200 | a block cancels and logs exactly the candidates still pending under their locks |
| Refinement.ConfirmShows | backend/src/booking/booking.service.ts:373-523 | the whole confirm over the date rows is the confirm command of the booking model, seen through those rows |
| Refinement.SplitConfirmShows | backend/src/booking/booking.service.ts:373-523 | so is the split one, run undisturbed |
| Interleaving.OtherClockMeetsReservedIff | backend/src/booking/booking.service.ts:378-443 | a second confirmation reaches the conflict check exactly when its request had run out by the first confirmation's clock and not by its own, and then refuses |
| Interleaving.OtherClockReached | backend/src/booking/booking.service.ts:378-443 | such a state is reached under every hash |
| Locks.NoDeadlock | backend/src/booking/booking.service.ts:379-389 | under every hash for which some order ascends along every plan no reachable state has a circle of waiting transactions |
| Locks.NoDeadlockWhenHarmless | backend/src/booking/booking.service.ts:379-389 | so none under a hash whose collisions join only keys of one tier that are not bookings |
| Locks.NoDeadlockWithoutCollisions | backend/src/booking/booking.service.ts:379-389 | nor under one without collisions |
| Locks.Progress | backend/src/users/users.service.ts:136-178 | under such a hash, while any transaction runs, one has all its locks or can take the next |
| Locks.MutualExclusion | backend/src/booking/booking.service.ts:381-389 | a lock has one holder in every run and under every hash |
| Locks.PlansAscend | backend/src/booking/booking-message.service.ts:141-145 | every transaction takes its locks in one order: actor, pair and command keys, bookings by id, item |
| Locks.CollidingDeadlock | backend/src/booking/booking.service.ts:381-389 | with a suitable collision two confirmations stop each other |
| Deadlock.DeadlockIff | backend/src/booking/booking.service.ts:379-389 | as long as actor, pair and command keys share no lock, some run ends in a deadlock exactly when two plans take the same two locks in opposite orders |
| Deadlock.DeadlockStands | backend/src/users/users.service.ts:136-178 | under any hash, exactly when transactions can stand along their plans, no lock taken twice, waiting in a circle |
| Deadlock.ReachedIff | backend/src/users/users.service.ts:136-178 | a state is reached exactly when each transaction is somewhere along an allowed plan and no lock is taken twice |
| Deadlock.OneCollisionStops | backend/src/users/users.service.ts:154-178 | one collision of a booking's key with the item's of a later booking lets a block and a confirmation stop each other |
| Base32.Encode | backend/src/admin/admin-totp.ts:73-90 | the text spells the number of the bytes followed by zero bits, in ceil(8n/5) symbols (sections 6 and 3.2 of RFC 4648, unpadded) |
| Base32.Decode | backend/src/admin/admin-totp.ts:92-111 | fails exactly on a character outside the alphabet, else the bytes are the whole octets of the text |
| Base32.RoundTrip | backend/src/admin/admin-totp.ts:73-111 | what was encoded is what is decoded |
| Base32.EncodeThenDecode | backend/src/admin/admin-totp.ts:73-111 | both functions in turn give back every byte sequence |
| Base32.EncodingUnique | backend/src/admin/admin-totp.ts:73-90 | bytes have one encoding |
| Base32.ReencodeIff | backend/src/admin/admin-totp.ts:73-111 | decoding and encoding again gives the text back exactly when its spare bits are fewer than a symbol and zero |
| Base32.ShiftIn | backend/src/admin/admin-totp.ts:79-82 | the 32-bit shift loses no pending bit although the accumulator is never masked |
| Base32.AlphabetSpelled | backend/src/admin/admin-totp.ts:3-3 | the alphabet by position |
| Sessions.OnePerSession | backend/src/auth/auth.service.ts:325-358 | a redeemable token is its session's current one, its session is listed, and it is the only one |
| Sessions.RevokeAllMissesNone | backend/src/auth/auth.service.ts:434-456 | after a revocation of all sessions no token of the user has a standing key |
| Sessions.ReuseKillsFamily | backend/src/auth/auth.service.ts:325-335 | presenting a rotated token before it expires ends its session in every continuation |
| Sessions.ReuseKillsIff | backend/src/auth/auth.service.ts:325-335 | it ends the session exactly while the token still verifies |
| Sessions.ExpiredReuseSpares | backend/src/auth/auth.service.ts:325-335 | a reachable state in which the rotated token has just expired and presenting it leaves the session redeemable |
| Sessions.Rotates | backend/src/auth/auth.service.ts:325-358 | a redeemed token is replaced by one redeemable token of the same session |
| Sessions.DeadForever | backend/src/auth/auth.service.ts:492-561 | a dead session stays dead |
| SessionCalls.LogoutEnds | backend/src/auth/auth.service.ts:360-385 | a logout with a standing token takes its session off the list at once, no token of it is redeemable after any further calls, and every other session stands |
| SessionCalls.LogoutElse | backend/src/auth/auth.service.ts:360-385 | any other logout changes nothing that stands |
| SessionCalls.RevokeEnds | backend/src/auth/auth.service.ts:416-432 | the same of revoking one session; one that does not stand is left alone |
| SessionCalls.RevokeAllEnds | backend/src/auth/auth.service.ts:434-456 | revoking all raises the version, empties the list and leaves no record and no key |
| SessionCalls.RevokeAllSpares | backend/src/auth/auth.service.ts:434-456 | and touches nobody else |
| SessionCalls.RefreshIff | backend/src/auth/auth.service.ts:325-358 | a token is issued exactly for a redeemable one; a blocked user is told so |
| SessionCalls.RefreshSpares | backend/src/auth/auth.service.ts:325-358 | rotating one session leaves every other one alone |
| SessionCalls.LoginIff | backend/src/auth/auth.service.ts:492-561 | a session opens exactly for a user who may log in: listed, redeemable, beside all others |
| SessionCalls.ListIff | backend/src/auth/auth.service.ts:387-414 | the listing shows exactly the listed sessions that stand and prunes only the others |
| Sessions.NextKeeps | backend/src/auth/auth.service.ts:325-456 | every call keeps keys, sessions and index consistent, expiry included |
| Sessions.AuthService.IssueTokens | backend/src/auth/auth.service.ts:492-561 | writes the key, the session and the index entry of one new token |
| Sessions.AuthService.Login | backend/src/auth/auth.service.ts:208-217 | opens a session for a user who may log in |
| Sessions.AuthService.Refresh | backend/src/auth/auth.service.ts:325-358 | rotates, refuses, or revokes the session |
| Sessions.AuthService.Logout | backend/src/auth/auth.service.ts:360-385 | removes the token's session |
| Sessions.AuthService.RevokeSession | backend/src/auth/auth.service.ts:416-432 | removes one session |
| Sessions.AuthService.RevokeAllSessions | backend/src/auth/auth.service.ts:434-456 | removes all sessions of a user and raises the version |
| Sessions.AuthService.ListSessions | backend/src/auth/auth.service.ts:387-414 | lists the standing sessions and takes only the others off the index |
| Sessions.AuthService.PruneIndex | backend/src/auth/auth.service.ts:394-409 | the loop of the listing removes each session without a standing record |
| Sessions.ListKeeps | backend/src/auth/auth.service.ts:387-414 | listing takes nothing off the index that a standing key needs |
| Sessions.AuthService.CollectKeys | backend/src/auth/auth.service.ts:437-444 | the loop collects the current key of each standing session |
| Pages.PagesCoverAll | backend/src/booking/booking-message.service.ts:71-120 | following the cursors ends, and the pages joined oldest first are every message once in order of time and id |
| Pages.PageAt | backend/src/booking/booking-message.service.ts:96-119 | each page continues right behind its cursor and the next cursor is its oldest message |
| Pages.NewerIgnored | backend/src/booking/booking-message.service.ts:81-119 | messages that arrive meanwhile change nothing the caller still reads |
| Pages.CursorContinues | backend/src/booking/booking-message.service.ts:96-108 | the cursor condition selects exactly the rest of the order, ties included |
| Rubles.RoundTrip | operator/src/App.tsx:928-944 | every amount from 0 to 2^53 - 1 is read back from its text |
| Rubles.CanonicalIff | operator/src/App.tsx:928-944 | an accepted text is shown canonically with the same value, and unchanged exactly when it was canonical |
| Rubles.MalformedIff | operator/src/App.tsx:929-932 | malformed exactly when the trimmed text has no such shape |
| Rubles.ShapeParses | operator/src/App.tsx:928-939 | a well-formed text means its roubles and padded kopecks |
| Text.TrimIs | backend/src/booking/booking-terms.ts:300-304 | only white space is taken off, and only at the ends |
| Text.Trim | backend/src/booking/booking-terms.ts:300-304 | no space at either end, and a text without any stays as it is |

## Left out

- Transactions of the store class are sequential; concurrency is modelled apart, in `Interleaving.dfy` and `Locks.dfy`, and there only for the rows that decide dates and histories.
- The store nests a booking's deposit operations by position and keys its other rows by booking, so row ids other than a booking's are not modelled; a booking id is fresh when it is inserted.
- Store.Store.ProcessPending: which of equally early operations the query puts first is left open, though the source breaks ties by creation time; an exception inside a transaction ends the source's loop and is not modelled, since only a repeated provider id could raise one (see `Worker.SuccessNeverCollides`).
- Store.Store.Checkout: the transaction is one step with the provider's answers inside it; a payment row is unique per booking, but a booking may be charged at the provider under several keys, of which the stored payment names one.
- Store.Store.CreateAct: whether the uploaded object passes its checks, and the hash of the sanitized image, are one input.
- Store.Store.Create: the item row holds its prices in kopecks; its decimals and texts are modelled in `Writer.dfy`.
- Store.Store.BlockPair: a cancelled request keeps its PENDING deposit row, as in the source.
- Outbox events, system messages, audit rows and metrics are not modelled; they are written beside the modelled rows and never read by the modelled code.
- ProviderBooks.ProviderNeverOverpays: runs in which the provider declines an operation are excluded; the fake one never declines what a worker asks.
- Currency is always RUB, and payload hashes and idempotency keys are compared as given.
- Worker.OperationIdsDistinct: that digests and key texts do not collide is assumed; the source hashes with SHA-256 and cuts the digest to 24 digits.
- Bookings without a terms snapshot are not modelled; every booking comes from `create`.
- JSON numbers and coordinates are exact decimals, not IEEE doubles; whether a text is an ISO timestamp is an input.
- TermsWriter.WrittenReadBack: the item's price is taken to be non-negative, as the database constraint on prices demands.
- Calendar dates are day numbers and instants are integers; date parsing and the Moscow time zone are not modelled.
- Base32.Decode: upper-casing is an input, since Unicode case mapping is not modelled; the round trip needs only that it leaves Base32 text alone.
- Sessions: each call is one step, although `refresh` reads, deletes and writes its keys separately; a signed token is one that was issued, ids never repeat, and Redis and token lifetimes are one constant; one-time codes, access tokens and step-up tokens are not modelled.
- Pages: sending and marking messages as read are not modelled beyond the lock order of `send`.
- Row locks of the database are not modelled; a commit is one step at which conditional updates are evaluated.
- Account closure, reviews, reports, support tickets, item editing, uploads, backups, the public site and the user interfaces would only add easier members of the same kinds.
