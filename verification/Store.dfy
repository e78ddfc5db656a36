/** The tables the services write, and the services' methods, each proved to take one step of the model. */
module Store {
  import opened Domain
  import opened Deals
  import opened DealInvariant
  import DealSteps
  import opened Evolution
  import opened Journal
  import opened Market
  import opened MarketInvariant
  import opened MarketRuns
  import opened Price
  import opened Provider
  import opened Text
  import Legal

  const BATCH_SIZE: nat := 50

  datatype Result<+T> = Ok(value: T) | Err(error: Error)

  /** The columns of a booking. */
  datatype Booking = Booking(
    item: Id, borrower: Id, lender: Id, request: string, payload: string, start: int, end: int, terms: Terms,
    status: BookingStatus, expiresAt: Option<Time>, reason: Option<Reason>)

  /** An upload intent for booking evidence. */
  datatype Intent = Intent(actor: Id, booking: Id, objectKey: string, expiresAt: Time, used: bool)

  /** The lender's checklist before the handover. */
  datatype Readiness = Readiness(isWorking: bool, isComplete: bool, visibleDefects: string)

  /** What is kept beside an act: the checklist with the moment it was declared, and the image's place and hash. */
  datatype Evidence = Evidence(readiness: Option<(Readiness, Time)>, storageKey: string, sha256: string)

  datatype User = User(blocked: bool, deleted: bool)

  datatype Item = Item(owner: Id, approved: bool, pricePerDay: nat, deposit: nat)

  function Get<V>(table: map<Id, V>, b: Id): Option<V> {
    if b in table then Some(table[b]) else None
  }

  function All<V>(table: map<Id, seq<V>>, b: Id): seq<V> {
    if b in table then table[b] else []
  }

  /** The rows the expiry worker selects. */
  function Late(bookings: map<Id, Booking>, now: Time): set<Id> {
    set b | b in bookings && bookings[b].status == Pending && bookings[b].expiresAt.Some? &&
        bookings[b].expiresAt.value <= now
  }

  /** The deposits the deadline worker selects. */
  function Due(bookings: map<Id, Booking>, deposits: map<Id, Deposit>, now: Time): set<Id> {
    set b | b in bookings && b in deposits && deposits[b].status == Held &&
            deposits[b].windowEndsAt.Some? && deposits[b].windowEndsAt.value <= now
  }

  /** By the invariant a held deposit with a closed window belongs to a returned booking nobody disputes. */
  lemma HeldIsScheduled(d: Deal, now: Time)
    requires Inv(d)
    ensures var due := d.deposit.Some? && d.deposit.value.status == Held && d.deposit.value.windowEndsAt.Some? &&
            d.deposit.value.windowEndsAt.value <= now;
            DeadlineTx(d, now).Commit? &&
            if due then DeadlineTx(d, now).reply == 1 else DeadlineTx(d, now).deal == d
  {
    hide ActsOk, HistoryOk, TermsOk;
    if d.deposit.Some? && d.deposit.value.status == Held { assert FindKey(d.ops[..0], AutoRefund).None?; }
  }

  /** What the apply transaction does, case by case. */
  lemma ApplyCases(d: Deal, i: nat, token: Time, attempts: nat, outcome: ProviderResult, now: Time)
    ensures var tx := ApplyTx(d, i, token, attempts, outcome, now);
            if i >= |d.ops| || d.deposit.None? || d.ops[i].status != Waiting || d.ops[i].processingUntil != Some(token)
            then tx == Commit(d, ())
            else
              match outcome
              case TimedOut =>
                tx == Commit(d.(ops := d.ops[
                  i := d.ops[i].(processingUntil := None, nextAttemptAt := now + RetryDelay(attempts))]), ())
              case Declined(_) =>
                tx == Commit(d.(ops := d.ops[i := d.ops[i].(status := Failed, processingUntil := None)]), ())
              case Success(id) =>
                var dep, op := d.deposit.value, d.ops[i];
                if dep.status != Resolving then tx == Commit(d, ())
                else if (op.kind != RefundOp && op.kind != ReleaseOp) ||
                    dep.refunded + dep.released + op.amount > dep.amount
                then tx == Abort(Overspend)
                else
                  var credited, paid := CreditedDeal(d, i, id), PaysOff(d, i, id);
                  CompleteTx(credited, now, DepositSettled).Commit? ==>
                    tx == Commit(if paid then CompleteTx(credited, now, DepositSettled).deal else credited, ())
  {
    hide CompleteTx, RetryDelay, LegPaid;
  }

  /** A success under this lease is credited, so its provider id is stored. */
  predicate Credits(d: Deal, i: nat, token: Time) {
    i < |d.ops| && d.deposit.Some? && d.ops[i].status == Waiting && d.ops[i].processingUntil == Some(token) &&
    d.deposit.value.status == Resolving && (d.ops[i].kind == RefundOp || d.ops[i].kind == ReleaseOp) &&
    d.deposit.value.refunded + d.deposit.value.released + d.ops[i].amount <= d.deposit.value.amount
  }

  /** Nothing else writes on a success. */
  lemma UncreditedIdle(d: Deal, i: nat, token: Time, attempts: nat, id: string, now: Time)
    requires !Credits(d, i, token)
    ensures ApplyTx(d, i, token, attempts, Success(id), now).After(d) == d
  {
    hide CompleteTx, LegPaid;
  }

  /** The success pays the deposit off: by the amounts, and leg by leg. */
  predicate PaysOff(d: Deal, i: nat, id: string)
    requires i < |d.ops| && d.deposit.Some?
  {
    DealSteps.Credit(d.deposit.value, d.ops[i]).status == Resolved &&
    DecisionPaid(d.ops[i := Done(d.ops[i], id)], d.dispute)
  }

  /** The rows once a success is credited, before any completion. */
  function CreditedDeal(d: Deal, i: nat, id: string): Deal
    requires i < |d.ops| && d.deposit.Some?
  {
    var dep := DealSteps.Credit(d.deposit.value, d.ops[i]);
    d.(ops := d.ops[i := Done(d.ops[i], id)],
       deposit := Some(dep.(status := if PaysOff(d, i, id) then Resolved else Resolving)))
  }

  lemma CreditedIs(d: Deal, i: nat, id: string)
    requires i < |d.ops| && d.deposit.Some? && (d.ops[i].kind == RefundOp || d.ops[i].kind == ReleaseOp)
    ensures var dep, op := d.deposit.value, d.ops[i];
            var refunded := if op.kind == RefundOp then dep.refunded + op.amount else dep.refunded;
            var released := if op.kind == ReleaseOp then dep.released + op.amount else dep.released;
            var ops := d.ops[i := Done(op, id)];
            PaysOff(d, i, id) == (refunded + released == dep.amount && DecisionPaid(ops, d.dispute)) &&
            CreditedDeal(d, i, id) == d.(ops := ops, deposit := Some(
              dep.(refunded := refunded, released := released,
                status := if PaysOff(d, i, id) then Resolved else Resolving)))
  {
    hide DecisionPaid;
  }

  lemma SettledCommits(d: Deal, now: Time)
    requires d.deposit.Some? && FullySettled(d.deposit.value)
    ensures CompleteTx(d, now, DepositSettled).Commit?
  {
  }

  /** The bookings a bulk update cancels, as `updateMany` and `createMany` write them. */
  function CalledOff(d: Deal, actor: Id, command: CommandName, reason: Reason): Deal {
    Log(d, Some(actor), command, Cancelled).(reason := Some(reason), expiresAt := None)
  }

  lemma SelectionRows(d: Deal, lender: Id)
    requires d.status == Pending
    ensures Exec(d, Select(lender)) ==
            Log(d, Some(lender), CommandName.Confirm, Confirmed).(expiresAt := None, reason := None)
    ensures Exec(d, Drop(lender)) == VoidUnpaid(CalledOff(d, lender, CancelCompeting, CompetingConfirmed))
  {
  }

  predicate Between(d: Deal, one: Id, other: Id, now: Time) {
    LivePending(d, now) && ((d.borrower == one && d.lender == other) || (d.borrower == other && d.lender == one))
  }

  lemma BlockIsNext(m: Market, blocker: Id, blocked: Id, deals: map<Id, Deal>)
    requires blocker != blocked && deals.Keys == m.deals.Keys
    requires forall x | x in m.deals ::
               deals[x] == if Between(m.deals[x], blocker, blocked, m.clock)
                           then CalledOff(m.deals[x], blocker, BlockCounterparty, ParticipantBlocked) else m.deals[x]
    ensures Next(m, BlockUser(blocker, blocked)) == m.(deals := deals)
  {
    assert deals == BlockedDeals(m, blocker, blocked);
  }

  lemma ConfirmIsNext(m: Market, b: Id, lender: Id, deals: map<Id, Deal>)
    requires ConfirmRefusal(m, b, lender).None? && deals.Keys == m.deals.Keys
    requires forall x | x in m.deals ::
               deals[x] == if x == b then Exec(m.deals[x], Select(lender))
                           else if x in Competitors(m, b) then Exec(m.deals[x], Drop(lender)) else m.deals[x]
    ensures Next(m, ConfirmBooking(b, lender)) == m.(deals := deals)
  {
    hide Exec, Competitors;
    assert deals == ConfirmedDeals(m, b, lender);
  }

  lemma ConfirmRefused(m: Market, b: Id, lender: Id)
    requires ConfirmRefusal(m, b, lender).Some?
    ensures Next(m, ConfirmBooking(b, lender)) == m
  {
    hide ConfirmRefusal;
  }

  lemma BookIsNext(m: Market, id: Id, r: Request, listing: Option<Listing>, policy: Policy, blocked: bool, today: int)
    requires id !in m.deals
    ensures var res := BookTx(m, r, listing, policy, blocked, today);
            Next(m, Book(id, r, listing, policy, blocked, today)) == if res.New? then With(m, id, res.deal) else m
  {
    hide BookTx;
  }

  /** The same step on every booking; each step touches only its own booking, so their order does not matter. */
  /** Nothing is booked that is not on offer, or between two of whom one blocked the other. */
  lemma NothingBooked(
    m: Market, id: Id, r: Request, listing: Option<Listing>, policy: Policy, blocked: bool, today: int)
    requires listing.None? || blocked
    ensures Next(m, Book(id, r, listing, policy, blocked, today)) == m
  {
    hide NewTerms, ActivePending, Competing, RequestIn, ReservedBy, CalendarTaken;
  }

  function Each(m: Market, s: Step): Market {
    OnSome(m, m.deals.Keys, s)
  }

  function OnSome(m: Market, bs: set<Id>, s: Step): Market {
    m.(deals := map x | x in m.deals :: if x in bs then Exec(m.deals[x], s) else m.deals[x])
  }

  lemma {:induction false} EachKeeps(m: Market, bs: set<Id>, s: Step)
    requires MarketOk(m) && Single(s) && bs <= m.deals.Keys
    ensures MarketOk(OnSome(m, bs, s))
    decreases bs
  {
    hide MarketOk, Exec;
    if bs == {} {
      assert OnSome(m, bs, s) == m;
    } else {
      var b :| b in bs;
      var next := With(m, b, Exec(m.deals[b], s));
      SingleKeeps(m, b, s);
      EachKeeps(next, bs - {b}, s);
      assert OnSome(next, bs - {b}, s).deals == OnSome(m, bs, s).deals;
    }
  }

  lemma EachIs(m: Market, next: Market, s: Step)
    requires next.deals.Keys == m.deals.Keys && next == m.(deals := next.deals)
    requires forall x | x in m.deals :: next.deals[x] == Exec(m.deals[x], s)
    ensures next == Each(m, s)
  {
    hide Exec;
    assert next.deals == Each(m, s).deals;
  }

  lemma OnIsNext(m: Market, b: Id, s: Step)
    requires b in m.deals && Single(s) && !RollsBack(m, b, s)
    ensures Next(m, On(b, s)) == With(m, b, Exec(m.deals[b], s))
    ensures MarketOk(m) ==> MarketOk(Next(m, On(b, s)))
  {
    hide MarketOk, Exec;
    if MarketOk(m) { NextKeeps(m, On(b, s)); }
  }

  lemma PayRollsBack(m: Market, b: Id, s: Step)
    requires b in m.deals && RollsBack(m, b, s)
    ensures Next(m, On(b, s)) == m
  {
    hide Exec;
  }

  lemma LeaseIsNext(m: Market, b: Id, i: nat, now: Time)
    requires b in m.deals
    ensures var tx := ClaimTx(m.deals[b], i, now);
            tx.Commit? &&
            Next(m, TakeLease(b, i, now)) ==
              if tx.reply.None? then m
              else With(m, b, tx.deal).(claims := m.claims + [Claim(b, i, now + LEASE_MS, tx.reply.value, now)])
    ensures ClaimTx(m.deals[b], i, now).reply.None? ==> ClaimTx(m.deals[b], i, now).deal == m.deals[b]
    ensures ClaimTx(m.deals[b], i, now).reply.Some? <==> Claimable(m.deals[b], i, now)
    ensures Claimable(m.deals[b], i, now) ==>
              i < |ClaimTx(m.deals[b], i, now).deal.ops| &&
              SameOrder(ClaimTx(m.deals[b], i, now).deal.ops[i], m.deals[b].ops[i])
  {
  }

  lemma {:induction false} Earliest(m: Market, left: set<(Id, nat)>) returns (c: (Id, nat))
    requires left != {}
    ensures c in left && forall x | x in left :: NextAt(m, c) <= NextAt(m, x)
    decreases |left|
  {
    hide NextAt;
    c :| c in left;
    if left != {c} {
      var other := Earliest(m, left - {c});
      if NextAt(m, other) < NextAt(m, c) { c := other; }
    }
  }

  lemma RunAppendNothing(m: Market)
    ensures Run(m, []) == m
  {
  }

  /** An operation some worker may take now. */
  predicate DueNow(m: Market, c: (Id, nat), now: Time) {
    c.0 in m.deals && Claimable(m.deals[c.0], c.1, now)
  }

  /** The due operations, at most fifty, earliest first; which of equally early ones come first is left open. */
  ghost predicate Picks(m: Market, batch: seq<(Id, nat)>, now: Time) {
    && (forall n | 0 <= n < |batch| :: DueNow(m, batch[n], now))
    && (forall n, k | 0 <= n < k < |batch| :: batch[n] != batch[k] && NextAt(m, batch[n]) <= NextAt(m, batch[k]))
    && |batch| <= BATCH_SIZE
    && (forall c | DueNow(m, c, now) && c !in batch ::
          |batch| == BATCH_SIZE && forall n | 0 <= n < |batch| :: NextAt(m, batch[n]) <= NextAt(m, c))
  }

  function NextAt(m: Market, c: (Id, nat)): Time {
    if c.0 in m.deals && c.1 < |m.deals[c.0].ops| then m.deals[c.0].ops[c.1].nextAttemptAt else 0
  }

  /** Taking and reporting one operation leaves every other one as due as it was. */
  lemma OthersStayDue(m: Market, b: Id, i: nat, outcome: ProviderResult, c: (Id, nat), now: Time)
    requires MarketOk(m) && DueNow(m, (b, i), now) && DueNow(m, c, now) && c != (b, i)
    ensures DueNow(Next(Next(m, TakeLease(b, i, now)), ReportOutcome(|m.claims|, outcome)), c, now)
  {
    hide MarketOk, Inv, Next, ClaimTx, ApplyTx;
    var d := m.deals[b];
    var leased := Next(m, TakeLease(b, i, now));
    LeasedOne(m, b, i, now);
    RowInv(m, b);
    LeasedInv(d, i, now);
    ReportIsNext(leased, |m.claims|, outcome);
    var report := leased.claims[|m.claims|];
    if c.0 == b { ReportOthers(leased.deals[b], d, i, report.token, report.attempts, outcome, now, c.1); }
  }

  lemma RowInv(m: Market, b: Id)
    requires MarketOk(m) && b in m.deals
    ensures Inv(m.deals[b])
  {
    hide Inv, RequestsUnique, RequestsClear, NoDoubleBooking, Capped, LeasesFenced;
  }

  lemma LeasedInv(d: Deal, i: nat, now: Time)
    requires Inv(d) && Claimable(d, i, now)
    ensures Inv(d.(ops := d.ops[i := d.ops[i].(processingUntil := Some(now + LEASE_MS),
            attempts := d.ops[i].attempts + 1)]))
  {
    hide Inv;
    DealSteps.ClaimKeeps(d, i, now);
  }

  /** A report of one operation leaves the others due. */
  lemma ReportOthers(
    d: Deal, before: Deal, i: nat, token: Time, attempts: nat, outcome: ProviderResult, now: Time, j: nat)
    requires Inv(d) && j != i && i < |before.ops| == |d.ops| && d.ops == before.ops[i := d.ops[i]] &&
             Claimable(before, j, now)
    ensures Claimable(ApplyTx(d, i, token, attempts, outcome, now).After(d), j, now)
  {
    hide Inv, ApplyTx;
    ReportIsExec(d, i, token, attempts, outcome, now);
    hide Exec;
    ReportWrites(d, Report(i, token, attempts, outcome, now));
    assert d.ops[j] == before.ops[j];
  }

  lemma LeasedOne(m: Market, b: Id, i: nat, now: Time)
    requires DueNow(m, (b, i), now)
    ensures var leased := Next(m, TakeLease(b, i, now));
            var op := m.deals[b].ops[i];
            b in leased.deals && leased.deals.Keys == m.deals.Keys &&
            leased.deals[b] == m.deals[b].(ops := m.deals[b].ops[
              i := op.(processingUntil := Some(now + LEASE_MS), attempts := op.attempts + 1)]) &&
            (forall x | x in m.deals && x != b :: leased.deals[x] == m.deals[x]) &&
            leased.claims == m.claims + [Claim(b, i, now + LEASE_MS, op.attempts + 1, now)]
  {
  }

  lemma ReportIsExec(d: Deal, i: nat, token: Time, attempts: nat, outcome: ProviderResult, now: Time)
    ensures Exec(d, Report(i, token, attempts, outcome, now)) == ApplyTx(d, i, token, attempts, outcome, now).After(d)
  {
    hide ApplyTx;
  }

  lemma ReportIsNext(m: Market, k: nat, outcome: ProviderResult)
    requires k < |m.claims| && m.claims[k].booking in m.deals
    ensures var c := m.claims[k];
            Next(m, ReportOutcome(k, outcome)) ==
              if outcome.Success? && OperationIdTaken(m, outcome.providerId) then m
              else With(m, c.booking, ApplyTx(m.deals[c.booking], c.i, c.token, c.attempts, outcome,
                  c.now).After(m.deals[c.booking]))
  {
    hide ApplyTx;
  }

  class Store {
    var bookings: map<Id, Booking>
    var payments: map<Id, Payment>
    var deposits: map<Id, Deposit>
    var operations: map<Id, seq<Operation>>
    var disputes: map<Id, Dispute>
    var acts: map<Id, map<Stage, Act>>
    var history: map<Id, seq<Entry>>
    var periods: map<Id, Period>
    var userBlocks: set<(Id, Id)>
    var intents: map<Id, Intent>
    var evidence: map<(Id, Stage), Evidence>
    var users: map<Id, User>
    var items: map<Id, Item>
    ghost var claims: seq<Claim>
    ghost var clock: Time

    /** The rows of one booking. */
    function DealAt(b: Id): Deal
      requires b in bookings
      reads this`bookings, this`payments, this`deposits, this`operations, this`disputes, this`acts, this`history
    {
      var row := bookings[b];
      Deal(row.item, row.borrower, row.lender, row.request, row.payload, row.start, row.end, row.terms,
           row.status, row.expiresAt, row.reason,
           Get(payments, b), Get(deposits, b), All(operations, b), Get(disputes, b),
           if b in acts then acts[b] else map[], All(history, b))
    }

    ghost function State(): Market
      reads this
    {
      Market(map b | b in bookings :: DealAt(b), periods, claims, clock)
    }

    ghost predicate Valid()
      reads this
    {
      MarketOk(State())
    }

    /** Only the rows of `b` were written. */
    twostate predicate OnlyRows(b: Id)
      reads this
    {
      && old(bookings).Keys == bookings.Keys && b in bookings
      && periods == old(periods) && claims == old(claims) && clock == old(clock)
      && forall x | x in bookings && x != b :: DealAt(x) == old(DealAt(x))
    }

    /** The rows of `b`, and no others, became `d`. */
    twostate predicate Wrote(b: Id, d: Deal)
      reads this
    {
      OnlyRows(b) && DealAt(b) == d
    }

    twostate predicate Untouched()
      reads this
    {
      bookings == old(bookings) && periods == old(periods) && claims == old(claims) && clock == old(clock) &&
      forall x | x in bookings :: DealAt(x) == old(DealAt(x))
    }

    /**
     * When the rows of one booking became what step `s` makes of them, that was one command of the model, and the
     * store is still valid.
     */
    lemma StepIsNext(before: Market, b: Id, s: Step)
      requires b in before.deals && bookings.Keys == before.deals.Keys && Single(s) && !RollsBack(before, b, s)
      requires periods == before.periods && claims == before.claims && clock == before.clock
      requires forall x | x in bookings && x != b :: DealAt(x) == before.deals[x]
      requires DealAt(b) == Exec(before.deals[b], s)
      ensures State() == Next(before, On(b, s))
      ensures MarketOk(before) ==> Valid()
    {
      hide DealAt, Exec;
      assert State().deals == before.deals[b := DealAt(b)];
      OnIsNext(before, b, s);
    }

    /** The status of a booking together with the history entry of the change. */
    method WriteStatus(b: Id, to: BookingStatus, expiresAt: Option<Time>, reason: Option<Reason>, actor: Option<Id>,
        command: CommandName)
      requires b in bookings
      modifies this`bookings, this`history
      ensures OnlyRows(b)
      ensures DealAt(b) == Log(old(DealAt(b)), actor, command, to).(expiresAt := expiresAt, reason := reason)
    {
      var was := bookings[b].status;
      bookings := bookings[b := bookings[b].(status := to, expiresAt := expiresAt, reason := reason)];
      history := history[b := All(history, b) + [Entry(actor, command, Some(was), to)]];
    }

    method WriteDepositStatus(b: Id, to: DepositStatus)
      requires b in bookings && b in deposits
      modifies this`deposits
      ensures OnlyRows(b)
      ensures DealAt(b) == WithDeposit(old(DealAt(b)), to)
    {
      deposits := deposits[b := deposits[b].(status := to)];
    }

    method AddOperation(b: Id, op: Operation)
      requires b in bookings
      modifies this`operations
      ensures OnlyRows(b)
      ensures DealAt(b) == old(DealAt(b)).(ops := old(DealAt(b)).ops + [op])
    {
      operations := operations[b := All(operations, b) + [op]];
    }

    // -------------------------------------------------------------- booking service

    method CancelPending(actor: Id, b: Id, fakePolicy: bool, now: Time) returns (r: Result<()>)
      modifies this
      ensures b !in old(bookings) ==> Untouched() && r == Err(NotFound)
      ensures b in old(bookings) ==>
                var tx := CancelTx(old(DealAt(b)), actor, fakePolicy, now);
                    Wrote(b, tx.After(old(DealAt(b)))) &&
                    r == Answered(tx)
    {
      if b !in bookings { return Err(NotFound); }
      var row := bookings[b];
      if row.borrower != actor && row.lender != actor { return Err(NotFound); }
      var reason := if row.borrower == actor then BorrowerCancelled else LenderDeclined;
      if row.status == Cancelled && row.reason == Some(reason) { return Ok(()); }
      var isPending := row.status == Pending && row.expiresAt.Some? && row.expiresAt.value > now;
      var isConfirmedFake := false;
      if row.status == Confirmed {
        isConfirmedFake := row.terms.fake;
        if isConfirmedFake && !fakePolicy { return Err(PolicyRequired); }
      }
      if !isPending && !isConfirmedFake { return Err(InvalidTransition); }
      if isConfirmedFake && b in deposits && deposits[b].status != Unpaid && deposits[b].status != Held {
        return Err(DepositConflict);
      }
      var deposit := Get(deposits, b);
      WriteStatus(b, Cancelled, None, Some(reason), Some(actor), Cancel);
      if deposit.Some? && deposit.value.status == Unpaid {
        WriteDepositStatus(b, Voided);
      }
      if deposit.Some? && deposit.value.status == Held {
        WriteDepositStatus(b, Resolving);
        AddOperation(b, NewOperation(RefundOp, deposit.value.amount, PreHandoverRefund, None, now));
      }
      return Ok(());
    }

    /** One candidate of the expiry worker. */
    method ExpireOne(b: Id, now: Time) returns (expired: nat)
      requires b in bookings
      modifies this`bookings, this`history, this`deposits
      ensures var tx := ExpireTx(old(DealAt(b)), now);
              Wrote(b, tx.After(old(DealAt(b)))) && tx.Commit? &&
              expired == tx.reply
    {
      var row := bookings[b];
      if row.status != Pending || row.expiresAt.None? || row.expiresAt.value > now { return 0; }
      WriteStatus(b, Cancelled, None, Some(PendingTimeout), None, Expire);
      if b in deposits && deposits[b].status == Unpaid {
        WriteDepositStatus(b, Voided);
      }
      return 1;
    }

    /** Every overdue request is cancelled, counted once, and nothing else is touched. */
    method ExpirePending(now: Time) returns (expired: nat)
      requires Valid()
      modifies this`bookings, this`history, this`deposits
      ensures Valid() && State() == Each(old(State()), ExpireAt(now))
      ensures expired == |Late(old(bookings), now)|
    {
      hide ExpireTx, DealAt, Late, MarketOk;
      ghost var before := State();
      LateAreOverdue(now);
      var candidates := Late(bookings, now);
      expired := ExpireAll(candidates, now);
      EachKeeps(before, before.deals.Keys, ExpireAt(now));
      EachIs(before, State(), ExpireAt(now));
    }

    method ExpireAll(late: set<Id>, now: Time) returns (expired: nat)
      requires late <= bookings.Keys
      requires forall b | b in bookings ::
                 if b in late then ExpireTx(DealAt(b), now).Commit? && ExpireTx(DealAt(b), now).reply == 1
                 else ExpireTx(DealAt(b), now).After(DealAt(b)) == DealAt(b)
      modifies this`bookings, this`history, this`deposits
      ensures bookings.Keys == old(bookings.Keys)
      ensures forall b | b in bookings :: DealAt(b) == ExpireTx(old(DealAt(b)), now).After(old(DealAt(b)))
      ensures expired == |late|
    {
      hide ExpireTx, DealAt;
      var candidates := late;
      ghost var was := map b | b in bookings :: DealAt(b);
      expired := 0;
      while candidates != {}
        invariant bookings.Keys == old(bookings.Keys) && candidates <= late <= bookings.Keys
        invariant expired + |candidates| == |late|
        invariant forall b | b in bookings :: DealAt(b) == if b in candidates then was[b]
                  else ExpireTx(was[b], now).After(was[b])
        decreases candidates
      {
        var b :| b in candidates;
        var one := ExpireOne(b, now);
        candidates := candidates - {b};
        expired := expired + one;
      }
    }

    lemma LateAreOverdue(now: Time)
      ensures Late(bookings, now) <= bookings.Keys
      ensures forall b | b in bookings ::
                if b in Late(bookings, now) then ExpireTx(DealAt(b), now).Commit? && ExpireTx(DealAt(b), now).reply == 1
                else ExpireTx(DealAt(b), now).After(DealAt(b)) == DealAt(b)
    {
    }

    // -------------------------------------------------------------- deposit service

    method CompleteBookingAfterReturn(b: Id, now: Time, trigger: Trigger) returns (r: Result<nat>)
      requires b in bookings
      modifies this`bookings, this`history
      ensures var tx := CompleteTx(old(DealAt(b)), now, trigger);
              Wrote(b, tx.After(old(DealAt(b)))) &&
              r == Answered(tx)
    {
      var row := bookings[b];
      if row.status != Returned { return Ok(0); }
      var deposit, dispute := Get(deposits, b), Get(disputes, b);
      match trigger {
        case ZeroDepositReturn =>
          if deposit.Some? || dispute.Some? { return Err(UnexpectedDeposit); }
        case DisputeWindowClosed =>
          if deposit.None? || deposit.value.windowEndsAt.None? || deposit.value.windowEndsAt.value > now ||
              dispute.Some? {
            return Ok(0);
          }
        case DisputeDecided =>
          if deposit.None? || dispute.None? || dispute.value.status != Decided { return Ok(0); }
        case DepositSettled =>
          if dispute.Some? && dispute.value.status != Decided { return Ok(0); }
          if deposit.None? || deposit.value.windowEndsAt.None? { return Ok(0); }
          if deposit.value.windowEndsAt.value > now && dispute.None? { return Ok(0); }
          if !FullySettled(deposit.value) { return Err(NotSettled); }
      }
      WriteStatus(b, Completed, row.expiresAt, row.reason, None, Completion(trigger));
      return Ok(1);
    }

    method Checkout(
      provider: FakeSafeDealProvider, keyText: KeyText,
      borrower: Id, b: Id, wanted: Wanted, fakePolicy: bool, key: string, now: Time)
      returns (r: Result<ProviderResult>, ghost checkout: ProviderCall, ghost hold: ProviderCall)
      modifies this, provider
      ensures b !in old(bookings) ==> Untouched() && r.Err? && provider.operations == old(provider.operations)
      ensures b in old(bookings) ==>
                Asked(checkout, hold, provider.operations) ==
                AskCheckout(old(provider.operations), b, old(DealAt(b)), borrower, fakePolicy, key, wanted, keyText,
                  provider.digest)
      ensures b in old(bookings) ==>
                var tx := CheckoutTx(old(DealAt(b)), borrower, fakePolicy, Trim(key), checkout, hold, now);
                if tx.Commit? && old(Clashes(b, checkout, hold))
                then Untouched() && r == Err(DuplicateProviderId)
                else Wrote(b, tx.After(old(DealAt(b)))) && r == Answered(tx)
    {
      hide Trim;
      checkout, hold := Thrown, Thrown;
      if !fakePolicy { return Err(PolicyRequired), checkout, hold; }
      if Trim(key) == "" { return Err(KeyRequired), checkout, hold; }
      if b !in bookings || bookings[b].borrower != borrower { return Err(NotFound), checkout, hold; }
      var row := bookings[b];
      assert DealAt(b).borrower == row.borrower && DealAt(b).status == row.status && DealAt(b).terms == row.terms;
      hide Reply, Recorded, AskHold, DealAt, Clashes;
      if row.status != Confirmed { return Err(InvalidTransition), checkout, hold; }
      if !row.terms.fake { return Err(InvalidTerms), checkout, hold; }
      r, checkout, hold := ChargeAndSettle(provider, keyText, borrower, b, wanted, key, now);
    }

    /** The charge of a confirmed booking with a fake payment, and what follows it. */
    method ChargeAndSettle(
      provider: FakeSafeDealProvider, keyText: KeyText, borrower: Id, b: Id, wanted: Wanted, key: string, now: Time)
      returns (r: Result<ProviderResult>, ghost checkout: ProviderCall, ghost hold: ProviderCall)
      requires b in bookings && bookings[b].borrower == borrower && bookings[b].status == Confirmed &&
               bookings[b].terms.fake && Trim(key) != ""
      modifies this, provider
      ensures Asked(checkout, hold, provider.operations) ==
              AskCheckout(old(provider.operations), b, old(DealAt(b)), borrower, true, key, wanted, keyText,
                provider.digest)
      ensures var tx := CheckoutTx(old(DealAt(b)), borrower, true, Trim(key), checkout, hold, now);
              if tx.Commit? && old(Clashes(b, checkout, hold))
              then Untouched() && r == Err(DuplicateProviderId)
              else Wrote(b, tx.After(old(DealAt(b)))) && r == Answered(tx)
    {
      checkout, hold := Thrown, Thrown;
      var row := bookings[b];
      assert DealAt(b).borrower == row.borrower && DealAt(b).status == row.status && DealAt(b).terms == row.terms;
      hide Trim, Reply, Recorded, DealAt, OperationIdStored, PaymentIdStored;
      var charged := provider.Execute(Charge(key, b, row.terms.totalMinor, wanted));
      checkout := charged;
      if charged.Thrown? { return Err(ProviderRefused), checkout, hold; }
      if !charged.result.Success? { return Ok(charged.result), checkout, hold; }
      r, hold := SettleCheckout(provider, keyText, borrower, b, key, charged.result.providerId, now);
    }

    /** A checkout the provider charged: repeat the stored answer, or hold the deposit and record the payment. */
    method SettleCheckout(
      provider: FakeSafeDealProvider, keyText: KeyText,
      borrower: Id, b: Id, ghost key: string, providerId: string, now: Time)
      returns (r: Result<ProviderResult>, ghost hold: ProviderCall)
      requires b in bookings && bookings[b].borrower == borrower && bookings[b].status == Confirmed &&
               bookings[b].terms.fake && Trim(key) != ""
      modifies this, provider
      ensures (hold, provider.operations) ==
              AskHold(old(provider.operations), b, old(DealAt(b)), Answer(Success(providerId)), keyText,
                provider.digest)
      ensures var tx := CheckoutTx(old(DealAt(b)), borrower, true, Trim(key), Answer(Success(providerId)), hold, now);
              if tx.Commit? && old(Clashes(b, Answer(Success(providerId)), hold))
              then Untouched() && r == Err(DuplicateProviderId)
              else Wrote(b, tx.After(old(DealAt(b)))) && r == Answered(tx)
    {
      hide Trim, Reply, Recorded;
      hold := Thrown;
      if b in payments {
        var paid := payments[b];
        if paid.userId != borrower || paid.status != PaymentSucceeded || paid.amount != bookings[b].terms.totalMinor ||
            paid.providerId == "" {
          return Err(PaymentConflict), hold;
        }
        if b in deposits && deposits[b].status != Held { return Err(DepositConflict), hold; }
        return Ok(Success(paid.providerId)), hold;
      }
      r, hold := HoldAndRecord(provider, keyText, borrower, b, key, providerId, now);
    }

    /** A first charge: hold the deposit, if there is one, and record the payment. */
    method HoldAndRecord(
      provider: FakeSafeDealProvider, keyText: KeyText,
      borrower: Id, b: Id, ghost key: string, providerId: string, now: Time)
      returns (r: Result<ProviderResult>, ghost hold: ProviderCall)
      requires b in bookings && bookings[b].borrower == borrower && bookings[b].status == Confirmed &&
               bookings[b].terms.fake && Trim(key) != "" && b !in payments
      modifies this, provider
      ensures (hold, provider.operations) ==
              AskHold(old(provider.operations), b, old(DealAt(b)), Answer(Success(providerId)), keyText,
                provider.digest)
      ensures var tx := CheckoutTx(old(DealAt(b)), borrower, true, Trim(key), Answer(Success(providerId)), hold, now);
              if tx.Commit? && old(Clashes(b, Answer(Success(providerId)), hold))
              then Untouched() && r == Err(DuplicateProviderId)
              else Wrote(b, tx.After(old(DealAt(b)))) && r == Answered(tx)
    {
      hide Trim, OperationIdStored, PaymentIdStored, Reply, Recorded;
      assert DealAt(b).deposit == Get(deposits, b) && DealAt(b).payment.None?;
      hold := Thrown;
      if bookings[b].terms.depositMinor > 0 && (b !in deposits || deposits[b].status != Unpaid ||
          deposits[b].amount != bookings[b].terms.depositMinor) {
        return Err(DepositConflict), hold;
      }
      if bookings[b].terms.depositMinor == 0 && b in deposits { return Err(UnexpectedDeposit), hold; }
      var holdId := "";
      if b in deposits {
        var held := provider.Execute(Move(keyText(b, HoldKey), b, HoldOp, bookings[b].terms.depositMinor, WantSuccess));
        hold := held;
        if held.Thrown? { return Err(ProviderRefused), hold; }
        if !held.result.Success? { return Err(HoldNotSucceeded), hold; }
        holdId := held.result.providerId;
      }
      if PaymentIdStored(providerId) || (b in deposits && OperationIdStored(holdId)) {
        return Err(DuplicateProviderId), hold;
      }
      RecordPayment(b, Payment(borrower, bookings[b].terms.totalMinor, PaymentSucceeded, providerId), holdId, now);
      return Ok(Success(providerId)), hold;
    }

    predicate OperationIdStored(id: string)
      reads this`bookings, this`operations
    {
      exists b, i | b in bookings && 0 <= i < |All(operations, b)| :: All(operations, b)[i].providerId == Some(id)
    }

    predicate PaymentIdStored(id: string)
      reads this`bookings, this`payments
    {
      exists b | b in bookings :: b in payments && payments[b].providerId == id
    }

    /** The rows this checkout would store have an id some row has already. */
    predicate Clashes(b: Id, checkout: ProviderCall, hold: ProviderCall)
      reads this`bookings, this`payments, this`deposits, this`operations
    {
      b !in payments && checkout.Answer? && checkout.result.Success? &&
      (PaymentIdStored(checkout.result.providerId) ||
       (b in deposits && hold.Answer? && hold.result.Success? && OperationIdStored(hold.result.providerId)))
    }

    lemma ClashesAgree(b: Id, checkout: ProviderCall, hold: ProviderCall)
      requires b in bookings
      ensures Clashes(b, checkout, hold) == Collides(State(), DealAt(b), checkout, hold)
    {
      if checkout.Answer? && checkout.result.Success? { IdsAgree(checkout.result.providerId); }
      if hold.Answer? && hold.result.Success? { IdsAgree(hold.result.providerId); }
      hide PaymentIdStored, OperationIdStored, PaymentIdTaken, OperationIdTaken;
    }

    lemma IdsAgree(id: string)
      ensures OperationIdStored(id) == OperationIdTaken(State(), id)
      ensures PaymentIdStored(id) == PaymentIdTaken(State(), id)
    {
      var m := State();
      assert forall b | b in bookings :: m.deals[b].ops == All(operations, b) && m.deals[b].payment == Get(payments, b);
    }

    /** The rows a paid checkout writes. */
    method RecordPayment(b: Id, payment: Payment, holdId: string, now: Time)
      requires b in bookings
      modifies this`payments, this`deposits, this`operations
      ensures OnlyRows(b)
      ensures var paid := old(DealAt(b)).(payment := Some(payment));
              DealAt(b) == if b !in old(deposits) then paid
                           else WithDeposit(paid, Held).(ops := paid.ops +
                               [HeldOperation(paid.terms.depositMinor, holdId, now)])
    {
      payments := payments[b := payment];
      if b in deposits {
        WriteDepositStatus(b, Held);
        AddOperation(b, HeldOperation(bookings[b].terms.depositMinor, holdId, now));
      }
    }

    method RetryFailedOperation(b: Id, i: nat, fakePolicy: bool, idempotencyKey: string,
        now: Time) returns (r: Result<nat>)
      modifies this
      ensures b !in old(bookings) ==> Untouched() && r.Err?
      ensures b in old(bookings) ==>
                var tx := RetryTx(old(DealAt(b)), i, fakePolicy, Trim(idempotencyKey), now);
                Wrote(b, tx.After(old(DealAt(b)))) && r == Answered(tx)
    {
      hide Trim, FindKey, HasRetry;
      if !fakePolicy { return Err(PolicyRequired); }
      var commandKey := Trim(idempotencyKey);
      if commandKey == "" { return Err(KeyRequired); }
      if b !in bookings || i >= |All(operations, b)| { return Err(NotFound); }
      var ops := operations[b];
      var operation := ops[i];
      var existing := FindKey(ops, RetryOf(i, commandKey));
      if existing.Some? {
        var e := ops[existing.value];
        if e.retryOf != Some(i) || e.kind != operation.kind || e.amount != operation.amount { return Err(KeyReused); }
        return Ok(existing.value);
      }
      var dispute := Get(disputes, b);
      var required := 0;
      if dispute.Some? && operation.kind == RefundOp { required := dispute.value.refund; }
      if dispute.Some? && operation.kind == ReleaseOp { required := dispute.value.release; }
      if operation.status != Failed || b !in deposits || deposits[b].status != Resolving ||
          !DisputeDecidedBy(dispute) ||
         required <= 0 || required != operation.amount
      {
        return Err(NotRetryable);
      }
      if HasRetry(ops, i) { return Err(RetryExists); }
      AddOperation(b, NewOperation(operation.kind, operation.amount, RetryOf(i, commandKey), Some(i), now));
      return Ok(|ops|);
    }

    // -------------------------------------------------------------- act service

    /** The intent of this actor for this booking is there, unused and in time. */
    predicate CanUse(actor: Id, b: Id, intent: Id, now: Time)
      reads this`intents
    {
      intent in intents && intents[intent].actor == actor && intents[intent].booking == b &&
      !intents[intent].used && intents[intent].expiresAt > now
    }

    /** The rows a new act writes beside itself. */
    function EvidenceOf(intent: Id, readiness: Option<Readiness>, sha256: string, now: Time): Evidence
      requires intent in intents
      reads this`intents
    {
      var declared := match readiness
        case None => None
        case Some(r) => Some((r.(visibleDefects := Trim(r.visibleDefects)), now));
      Evidence(declared, intents[intent].objectKey, sha256)
    }

    /**
     * `image` is the hash of the sanitized upload, if the object passes its checks. Exactly a new act uses its
     * intent up and leaves its evidence.
     */
    method CreateAct(
      actor: Id, b: Id, stage: Stage, intent: Id, readiness: Option<Readiness>, image: Option<string>, now: Time)
      returns (r: Result<()>)
      modifies this`acts, this`intents, this`evidence
      ensures b !in old(bookings) ==>
                Untouched() && r.Err? && intents == old(intents) && evidence == old(evidence)
      ensures b in old(bookings) ==>
                var free := old(CanUse(actor, b, intent, now));
                var tx := CreateActTx(
                  old(DealAt(b)), actor, stage, intent, readiness.Some?, image.Some? && free, free);
                Wrote(b, tx.After(old(DealAt(b)))) && r == Answered(tx) &&
                (if tx.Commit? && stage !in old(DealAt(b)).acts
                 then image.Some? && intent in old(intents) &&
                      intents == old(intents)[intent := old(intents)[intent].(used := true)] &&
                      evidence == old(evidence)[(b, stage) := old(EvidenceOf(intent, readiness, image.value, now))]
                 else intents == old(intents) && evidence == old(evidence))
      ensures b in bookings && acts != old(acts) ==>
                intent in old(intents) && old(intents)[intent].actor == actor && old(intents)[intent].booking == b &&
                !old(intents)[intent].used && now < old(intents)[intent].expiresAt
    {
      if b !in bookings { return Err(NotFound); }
      var mine := if b in acts then acts[b] else map[];
      var row := bookings[b];
      assert DealAt(b).acts == mine && DealAt(b).status == row.status;
      assert DealAt(b).borrower == row.borrower && DealAt(b).lender == row.lender;
      hide DealAt, EvidenceOf;
      if stage in mine && mine[stage].author == actor && mine[stage].intent == intent { return Ok(()); }
      if (stage == Handover) != readiness.Some? { return Err(BadRequest); }
      if image.None? || !CanUse(actor, b, intent, now) { return Err(NotFound); }
      if row.borrower != actor && row.lender != actor { return Err(NotFound); }
      if row.status != StageStatus(stage) { return Err(InvalidTransition); }
      var expected := if stage == Handover then row.lender else row.borrower;
      if actor != expected { return Err(Forbidden); }
      if stage in mine { return Err(ActExists); }
      RecordAct(b, stage, Act(actor, intent, None), EvidenceOf(intent, readiness, image.value, now));
      return Ok(());
    }

    /** The rows of a new act; its intent is used up. */
    method RecordAct(b: Id, stage: Stage, act: Act, kept: Evidence)
      requires b in bookings && act.intent in intents
      modifies this`acts, this`intents, this`evidence
      ensures OnlyRows(b) && DealAt(b) == old(DealAt(b)).(acts := old(DealAt(b)).acts[stage := act])
      ensures act.intent in old(intents)
      ensures intents == old(intents)[act.intent := old(intents)[act.intent].(used := true)]
      ensures evidence == old(evidence)[(b, stage) := kept]
    {
      hide DealAt;
      WriteAct(b, stage, act);
      evidence := evidence[(b, stage) := kept];
      intents := intents[act.intent := intents[act.intent].(used := true)];
    }

    method ConfirmAct(actor: Id, b: Id, stage: Stage, now: Time) returns (r: Result<nat>)
      requires Valid()
      modifies this
      ensures b !in old(bookings) ==> Untouched() && r.Err?
      ensures b in old(bookings) ==>
                var tx := ConfirmActTx(old(DealAt(b)), actor, stage, now);
                Wrote(b, tx.After(old(DealAt(b)))) && r == Answered(tx)
    {
      if b !in bookings { return Err(NotFound); }
      ActCompletes(b, actor, stage, now);
      hide MarketOk, CompleteTx;
      var row := bookings[b];
      var mine := if b in acts then acts[b] else map[];
      if stage !in mine || (row.borrower != actor && row.lender != actor) { return Err(NotFound); }
      var act := mine[stage];
      if act.author == actor { return Err(OwnAct); }
      if act.confirmedBy.Some? {
        if act.confirmedBy == Some(actor) { return Ok(0); }
        return Err(ActConfirmed);
      }
      if row.status != StageStatus(stage) { return Err(InvalidTransition); }
      if stage == Handover && row.terms.fake {
        if b !in payments || payments[b].status != PaymentSucceeded { return Err(Unpayable); }
        if row.terms.depositMinor > 0 && (b !in deposits || deposits[b].status != Held) { return Err(Unpayable); }
      }
      SignAct(b, actor, stage, now);
      r := Ok(0);
      if stage == Return && row.terms.depositMinor == 0 {
        r := CompleteBookingAfterReturn(b, now, ZeroDepositReturn);
      }
    }

    /** The rows a signed act writes before any completion. */
    method SignAct(b: Id, actor: Id, stage: Stage, now: Time)
      requires b in bookings && b in acts && stage in acts[b]
      modifies this`acts, this`deposits, this`bookings, this`history
      ensures OnlyRows(b)
      ensures var d := old(DealAt(b));
              var signed := d.(acts := d.acts[stage := d.acts[stage].(confirmedBy := Some(actor))]);
              DealAt(b) ==
                if stage == Handover then Log(signed, Some(actor), ConfirmHandover, Active)
                else Log(if d.terms.fake && d.terms.windowMs.Some? && d.deposit.Some?
                         then signed.(deposit := Some(d.deposit.value.(windowEndsAt := Some(now +
                             d.terms.windowMs.value))))
                         else signed, Some(actor), ConfirmReturn, Returned)
    {
      assert DealAt(b).acts == acts[b];
      assert DealAt(b).expiresAt == bookings[b].expiresAt && DealAt(b).reason == bookings[b].reason;
      hide DealAt;
      var row := bookings[b];
      WriteAct(b, stage, acts[b][stage].(confirmedBy := Some(actor)));
      if stage == Handover {
        WriteStatus(b, Active, row.expiresAt, row.reason, Some(actor), ConfirmHandover);
      } else {
        WriteReturn(b, actor, now);
      }
    }

    method WriteReturn(b: Id, actor: Id, now: Time)
      requires b in bookings
      modifies this`deposits, this`bookings, this`history
      ensures OnlyRows(b)
      ensures var d := old(DealAt(b));
              DealAt(b) ==
                Log(if d.terms.fake && d.terms.windowMs.Some? && d.deposit.Some?
                    then d.(deposit := Some(d.deposit.value.(windowEndsAt := Some(now + d.terms.windowMs.value))))
                    else d, Some(actor), ConfirmReturn, Returned)
    {
      var row := bookings[b];
      assert DealAt(b).terms == row.terms && DealAt(b).deposit == Get(deposits, b);
      assert DealAt(b).expiresAt == row.expiresAt && DealAt(b).reason == row.reason;
      hide DealAt;
      if row.terms.fake && row.terms.windowMs.Some? && b in deposits {
        WriteWindow(b, now + row.terms.windowMs.value);
      }
      WriteStatus(b, Returned, row.expiresAt, row.reason, Some(actor), ConfirmReturn);
    }

    method WriteAct(b: Id, stage: Stage, act: Act)
      requires b in bookings
      modifies this`acts
      ensures OnlyRows(b) && DealAt(b) == old(DealAt(b)).(acts := old(DealAt(b)).acts[stage := act])
    {
      acts := acts[b := (if b in acts then acts[b] else map[])[stage := act]];
    }

    method WriteWindow(b: Id, endsAt: Time)
      requires b in bookings && b in deposits
      modifies this`deposits
      ensures OnlyRows(b) && old(DealAt(b)).deposit.Some?
      ensures DealAt(b) == old(DealAt(b)).(deposit := Some(old(DealAt(b)).deposit.value.(windowEndsAt := Some(endsAt))))
    {
      deposits := deposits[b := deposits[b].(windowEndsAt := Some(endsAt))];
    }

    method WriteDispute(b: Id, dispute: Dispute)
      requires b in bookings
      modifies this`disputes
      ensures OnlyRows(b) && DealAt(b) == old(DealAt(b)).(dispute := Some(dispute))
    {
      disputes := disputes[b := dispute];
    }

    /** In a valid store the completion inside an act confirmation never throws, so nothing is rolled back. */
    lemma ActCompletes(b: Id, actor: Id, stage: Stage, now: Time)
      requires Valid() && b in bookings
      ensures ConfirmActTx(DealAt(b), actor, stage, now) != Abort(UnexpectedDeposit)
    {
      hide Inv, RequestsUnique, RequestsClear, NoDoubleBooking, Capped, LeasesFenced, ConfirmActTx;
      assert State().deals[b] == DealAt(b);
      DealSteps.ConfirmActKeeps(DealAt(b), actor, stage, now);
    }

    // -------------------------------------------------------------- dispute service

    method OpenDispute(actor: Id, b: Id, now: Time) returns (r: Result<()>)
      modifies this`disputes, this`deposits
      ensures b !in old(bookings) ==> Untouched() && r.Err?
      ensures b in old(bookings) ==>
                var tx := OpenDisputeTx(old(DealAt(b)), actor, now);
                    Wrote(b, tx.After(old(DealAt(b)))) &&
                    r == Answered(tx)
    {
      if b !in bookings || (bookings[b].borrower != actor && bookings[b].lender != actor) { return Err(NotFound); }
      if bookings[b].status != Returned || b !in deposits || deposits[b].status != Held ||
         deposits[b].windowEndsAt.None? || deposits[b].windowEndsAt.value <= now || b in disputes
      {
        return Err(DisputeNotAllowed);
      }
      WriteDispute(b, Dispute(actor, Open, None, "", 0, 0));
      WriteDepositStatus(b, Disputed);
      return Ok(());
    }

    method CreateResolutionOperation(b: Id, kind: OpKind, amount: nat, commandKey: string, now: Time)
      requires b in bookings
      modifies this`operations
      ensures OnlyRows(b)
      ensures DealAt(b) == old(DealAt(b)).(ops := old(DealAt(b)).ops + LegOperation(kind, amount, commandKey, now))
    {
      if amount == 0 { return; }
      AddOperation(b, NewOperation(kind, amount, Resolution(commandKey, kind), None, now));
    }

    /** Looks both legs up by their keys; a leg of zero is skipped. */
    method HasResolutionOperations(b: Id, refund: nat, release: nat, commandKey: string) returns (has: bool)
      ensures has <==>
              HasLeg(All(operations, b), RefundOp, refund, commandKey) &&
              HasLeg(All(operations, b), ReleaseOp, release, commandKey)
    {
      var legs := [(RefundOp, refund), (ReleaseOp, release)];
      var ops := All(operations, b);
      for i := 0 to |legs|
        invariant forall j | 0 <= j < i :: HasLeg(ops, legs[j].0, legs[j].1, commandKey)
      {
        if legs[i].1 == 0 { continue; }
        var found := FindKey(ops, Resolution(commandKey, legs[i].0));
        if found.None? || ops[found.value].kind != legs[i].0 || ops[found.value].amount != legs[i].1 {
          assert !HasLeg(ops, legs[i].0, legs[i].1, commandKey);
          return false;
        }
      }
      assert HasLeg(ops, legs[0].0, legs[0].1, commandKey) && HasLeg(ops, legs[1].0, legs[1].1, commandKey);
      return true;
    }

    method ResolveDispute(
      admin: Id, b: Id, fakePolicy: bool, decision: string, refund: int, release: int, idempotencyKey: string,
          now: Time)
      returns (r: Result<()>)
      modifies this
      ensures b !in old(bookings) ==> Untouched() && r.Err?
      ensures b in old(bookings) ==>
                var tx := ResolveTx(old(DealAt(b)), admin, fakePolicy, decision, refund, release, Trim(idempotencyKey),
                    now);
                Wrote(b, tx.After(old(DealAt(b)))) && r == Answered(tx)
    {
      hide Trim, HasLeg, LegOperation;
      if !fakePolicy { return Err(PolicyRequired); }
      var commandKey := Trim(idempotencyKey);
      if commandKey == "" { return Err(KeyRequired); }
      if refund < 0 || release < 0 { return Err(WrongTotal); }
      if b !in bookings || b !in disputes || b !in deposits { return Err(NotFound); }
      assert DealAt(b).deposit == Some(deposits[b]) && DealAt(b).dispute == Some(disputes[b]);
      assert DealAt(b).status == bookings[b].status && DealAt(b).ops == All(operations, b);
      hide DealAt, CompleteTx;
      if refund + release != deposits[b].amount { return Err(WrongTotal); }
      var dispute := disputes[b];
      if dispute.status == UnderReview || dispute.status == Decided {
        var has := HasResolutionOperations(b, refund, release, commandKey);
        if dispute.resolvedBy != Some(admin) || dispute.decision != decision ||
           dispute.refund != refund || dispute.release != release || !has
        {
          return Err(OtherDecision);
        }
        return Ok(());
      }
      if bookings[b].status != Returned || deposits[b].status != Disputed { return Err(DisputeNotAllowed); }
      WriteDecision(b, dispute.(status := Decided, resolvedBy := Some(admin), decision := decision, refund := refund,
          release := release), commandKey, now);
      var done := CompleteBookingAfterReturn(b, now, DisputeDecided);
      return Ok(());
    }

    /** The rows a decision writes before the completion: both legs, the deposit and the dispute. */
    method WriteDecision(b: Id, decided: Dispute, commandKey: string, now: Time)
      requires b in bookings && b in deposits
      modifies this`operations, this`deposits, this`disputes
      ensures OnlyRows(b)
      ensures var d := old(DealAt(b));
              DealAt(b) == WithDeposit(d, Resolving).(
                             ops := d.ops + (LegOperation(RefundOp, decided.refund, commandKey, now) +
                                 LegOperation(ReleaseOp, decided.release, commandKey, now)),
                             dispute := Some(decided))
    {
      hide LegOperation, DealAt;
      CreateResolutionOperation(b, RefundOp, decided.refund, commandKey, now);
      CreateResolutionOperation(b, ReleaseOp, decided.release, commandKey, now);
      WriteDepositStatus(b, Resolving);
      WriteDispute(b, decided);
      assert DealAt(b).ops == old(DealAt(b)).ops + (LegOperation(RefundOp, decided.refund, commandKey, now) +
        LegOperation(ReleaseOp, decided.release, commandKey, now));
    }

    // -------------------------------------------------------------- deadline worker

    method DeadlineOne(b: Id, now: Time) returns (scheduled: nat)
      requires b in bookings
      modifies this`operations, this`deposits, this`bookings, this`history
      ensures var tx := DeadlineTx(old(DealAt(b)), now); tx.Commit? && Wrote(b, tx.deal) && scheduled == tx.reply
    {
      assert DealAt(b).deposit == Get(deposits, b) && DealAt(b).dispute == Get(disputes, b);
      assert DealAt(b).status == bookings[b].status && DealAt(b).ops == All(operations, b);
      hide FindKey, DealAt, CompleteTx;
      if b !in deposits || deposits[b].status != Held || deposits[b].windowEndsAt.None? ||
          deposits[b].windowEndsAt.value > now ||
         bookings[b].status != Returned || b in disputes
      {
        return 0;
      }
      var existing := FindKey(All(operations, b), AutoRefund);
      if existing.Some? { return 0; }
      ScheduleRefund(b, now);
      return 1;
    }

    /** The refund of the whole deposit is queued, the deposit RESOLVING, and the booking completed if it may be. */
    method ScheduleRefund(b: Id, now: Time)
      requires b in bookings && b in deposits
      modifies this`operations, this`deposits, this`bookings, this`history
      ensures var d := old(DealAt(b));
              d.deposit.Some? &&
              var refund := NewOperation(RefundOp, d.deposit.value.amount, AutoRefund, None, now);
              var tx := CompleteTx(WithDeposit(d.(ops := d.ops + [refund]), Resolving), now, DisputeWindowClosed);
              tx.Commit? && Wrote(b, tx.deal)
    {
      assert DealAt(b).deposit == Get(deposits, b);
      hide DealAt;
      AddOperation(b, NewOperation(RefundOp, deposits[b].amount, AutoRefund, None, now));
      WriteDepositStatus(b, Resolving);
      var done := CompleteBookingAfterReturn(b, now, DisputeWindowClosed);
    }

    /** Every deposit whose dispute window closed is scheduled for its refund, once. */
    method ProcessDue(now: Time) returns (scheduled: nat)
      requires Valid()
      modifies this`operations, this`deposits, this`bookings, this`history
      ensures Valid() && State() == Each(old(State()), CloseWindow(now))
      ensures scheduled == |Due(old(bookings), old(deposits), now)|
    {
      hide DeadlineTx, DealAt, Due, MarketOk, Inv;
      ghost var before := State();
      DueAreScheduled(now);
      var candidates := Due(bookings, deposits, now);
      scheduled := ScheduleAll(candidates, now);
      EachKeeps(before, before.deals.Keys, CloseWindow(now));
      EachIs(before, State(), CloseWindow(now));
    }

    method ScheduleAll(due: set<Id>, now: Time) returns (scheduled: nat)
      requires due <= bookings.Keys
      requires forall b | b in bookings ::
                 if b in due then DeadlineTx(DealAt(b), now).Commit? && DeadlineTx(DealAt(b), now).reply == 1
                 else DeadlineTx(DealAt(b), now).After(DealAt(b)) == DealAt(b)
      modifies this`operations, this`deposits, this`bookings, this`history
      ensures bookings.Keys == old(bookings.Keys)
      ensures forall b | b in bookings :: DealAt(b) == DeadlineTx(old(DealAt(b)), now).After(old(DealAt(b)))
      ensures scheduled == |due|
    {
      hide DeadlineTx, DealAt, MarketOk;
      var candidates := due;
      ghost var was := map b | b in bookings :: DealAt(b);
      scheduled := 0;
      while candidates != {}
        invariant bookings.Keys == old(bookings.Keys) && candidates <= due <= bookings.Keys
        invariant scheduled + |candidates| == |due|
        invariant forall b | b in bookings :: DealAt(b) == if b in candidates then was[b]
                  else DeadlineTx(was[b], now).After(was[b])
        decreases candidates
      {
        var b :| b in candidates;
        var one := DeadlineOne(b, now);
        candidates := candidates - {b};
        scheduled := scheduled + one;
      }
    }

    lemma DueAreScheduled(now: Time)
      requires Valid()
      ensures Due(bookings, deposits, now) <= bookings.Keys
      ensures forall b | b in bookings ::
                if b in Due(bookings, deposits, now) then DeadlineTx(DealAt(b), now).Commit? &&
                    DeadlineTx(DealAt(b), now).reply == 1
                else DeadlineTx(DealAt(b), now).After(DealAt(b)) == DealAt(b)
    {
      forall b | b in bookings
        ensures if b in Due(bookings, deposits, now) then DeadlineTx(DealAt(b), now).Commit? &&
                DeadlineTx(DealAt(b), now).reply == 1
                else DeadlineTx(DealAt(b), now).After(DealAt(b)) == DealAt(b)
      {
        InvAt(b);
        HeldIsScheduled(DealAt(b), now);
      }
    }

    lemma InvAt(b: Id)
      requires Valid() && b in bookings
      ensures Inv(DealAt(b))
    {
      hide Inv, RequestsUnique, RequestsClear, NoDoubleBooking, Capped, LeasesFenced;
      assert State().deals[b] == DealAt(b);
    }

    // -------------------------------------------------------------- every command above

    /** Runs the method of a participant's step: it takes exactly that step, and a valid store stays valid. */
    method Perform(b: Id, s: Step)
      requires Valid() && b in bookings && (s.CancelBy? || s.SignAct? || s.Complain?)
      modifies this
      ensures Valid() && State() == Next(old(State()), On(b, s))
    {
      hide MarketOk, DealAt, Next, CancelTx, ConfirmActTx, OpenDisputeTx, Answered;
      ghost var before := State();
      match s {
        case CancelBy(actor, fakePolicy, now) => var r := CancelPending(actor, b, fakePolicy, now);
        case SignAct(actor, stage, now) => var r := ConfirmAct(actor, b, stage, now);
        case Complain(actor, now) => var r := OpenDispute(actor, b, now);
      }
      StepIsNext(before, b, s);
    }

    /** The same for an administrator's step; keys are trimmed before they are used. */
    method PerformAdmin(b: Id, s: Step)
      requires Valid() && b in bookings && (s.Decide? || s.Repeat?)
      modifies this
      ensures Valid() && State() == Next(old(State()), On(b, Trimmed(s)))
    {
      hide MarketOk, DealAt, Trim, Next, ResolveTx, RetryTx, Answered;
      ghost var before := State();
      match s {
        case Decide(admin, fakePolicy, decision, refund, release, command, now) =>
          var r := ResolveDispute(admin, b, fakePolicy, decision, refund, release, command, now);
        case Repeat(i, fakePolicy, command, now) => var r := RetryFailedOperation(b, i, fakePolicy, command, now);
      }
      StepIsNext(before, b, Trimmed(s));
    }

    method PerformCreateAct(
      actor: Id, b: Id, stage: Stage, intent: Id, readiness: Option<Readiness>, image: Option<string>, now: Time)
      requires Valid() && b in bookings
      modifies this`acts, this`intents, this`evidence
      ensures Valid()
      ensures var free := old(CanUse(actor, b, intent, now));
              State() == Next(old(State()),
                On(b, MakeAct(actor, stage, intent, readiness.Some?, image.Some? && free, free)))
    {
      hide MarketOk, DealAt, Next, CreateActTx, Answered, CanUse, EvidenceOf;
      ghost var before, free := State(), CanUse(actor, b, intent, now);
      var r := CreateAct(actor, b, stage, intent, readiness, image, now);
      StepIsNext(before, b, MakeAct(actor, stage, intent, readiness.Some?, image.Some? && free, free));
    }

    method PerformCheckout(
      provider: FakeSafeDealProvider, keyText: KeyText,
      borrower: Id, b: Id, wanted: Wanted, fakePolicy: bool, key: string, now: Time)
      returns (ghost checkout: ProviderCall, ghost hold: ProviderCall)
      requires Valid() && b in bookings
      modifies this, provider
      ensures Valid() && State() == Next(old(State()), On(b, Pay(borrower, fakePolicy, Trim(key), checkout, hold, now)))
      ensures Asked(checkout, hold, provider.operations) ==
              AskCheckout(old(provider.operations), b, old(DealAt(b)), borrower, fakePolicy, key, wanted, keyText,
                provider.digest)
    {
      hide MarketOk, DealAt, Trim, Next, CheckoutTx, Answered, Clashes, Collides, AskCheckout;
      ghost var before := State();
      var r;
      forall call, answer ensures Clashes(b, call, answer) == Collides(before, DealAt(b), call, answer) {
        ClashesAgree(b, call, answer);
      }
      r, checkout, hold := Checkout(provider, keyText, borrower, b, wanted, fakePolicy, key, now);
      if RollsBack(before, b, Pay(borrower, fakePolicy, Trim(key), checkout, hold, now)) {
        PayRollsBack(before, b, Pay(borrower, fakePolicy, Trim(key), checkout, hold, now));
        assert State().deals == before.deals;
      } else {
        StepIsNext(before, b, Pay(borrower, fakePolicy, Trim(key), checkout, hold, now));
      }
    }

    // -------------------------------------------------------------- operation worker

    /** Claims a due operation: the conditional update either takes the lease or counts no row. */
    method ClaimOperation(b: Id, i: nat, now: Time) returns (claimed: Option<Operation>)
      requires b in bookings
      modifies this`operations
      ensures var tx := ClaimTx(old(DealAt(b)), i, now);
              tx.Commit? && Wrote(b, tx.deal) && (claimed.Some? <==> tx.reply.Some?) &&
              (claimed.Some? ==>
                  tx.reply == Some(claimed.value.attempts) && i < |DealAt(b).ops| &&
                  claimed.value == DealAt(b).ops[i])
    {
      var ops := All(operations, b);
      if i >= |ops| || ops[i].status != Waiting || ops[i].nextAttemptAt > now ||
         (ops[i].processingUntil.Some? && ops[i].processingUntil.value > now)
      {
        return None;
      }
      var op := ops[i].(processingUntil := Some(now + LEASE_MS), attempts := ops[i].attempts + 1);
      WriteOperation(b, i, op);
      return Some(op);
    }

    method WriteOperation(b: Id, i: nat, op: Operation)
      requires b in bookings && i < |All(operations, b)|
      modifies this`operations
      ensures OnlyRows(b) && i < |old(DealAt(b)).ops| && DealAt(b) ==
              old(DealAt(b)).(ops := old(DealAt(b)).ops[i := op])
    {
      operations := operations[b := All(operations, b)[i := op]];
    }

    /**
     * Both legs of a decision have a succeeded operation of their amount; the search stops at the first that has
     * none.
     */
    method DecisionLegsPaid(b: Id, refund: nat, release: nat) returns (paid: bool)
      ensures paid <==> LegPaid(All(operations, b), RefundOp, refund) && LegPaid(All(operations, b), ReleaseOp, release)
    {
      var legs := [(RefundOp, refund), (ReleaseOp, release)];
      var ops := All(operations, b);
      paid := true;
      for i := 0 to |legs|
        invariant paid && forall j | 0 <= j < i :: LegPaid(ops, legs[j].0, legs[j].1)
      {
        if legs[i].1 == 0 { continue; }
        if !(exists k | 0 <= k < |ops| ::
            ops[k].kind == legs[i].0 && ops[k].amount == legs[i].1 &&
            ops[k].status == Succeeded) {
          assert !LegPaid(ops, legs[i].0, legs[i].1);
          return false;
        }
      }
      assert LegPaid(ops, legs[0].0, legs[0].1) && LegPaid(ops, legs[1].0, legs[1].1);
    }

    method ApplyOutcome(b: Id, i: nat, token: Time, attempts: nat, outcome: ProviderResult,
        now: Time) returns (r: Result<()>)
      requires b in bookings
      modifies this`operations, this`deposits, this`bookings, this`history
      ensures var tx := ApplyTx(old(DealAt(b)), i, token, attempts, outcome, now);
              if outcome.Success? && old(OperationIdStored(outcome.providerId)) && Credits(old(DealAt(b)), i, token)
              then Untouched() && r == Err(DuplicateProviderId)
              else Wrote(b, tx.After(old(DealAt(b)))) && r == Answered(tx)
    {
      ApplyCases(DealAt(b), i, token, attempts, outcome, now);
      assert DealAt(b).ops == All(operations, b) && DealAt(b).deposit == Get(deposits, b);
      hide DealAt, ApplyTx, RetryDelay, CompleteTx, CreditedDeal, PaysOff, OperationIdStored;
      var ops := All(operations, b);
      if i >= |ops| || b !in deposits || ops[i].status != Waiting || ops[i].processingUntil != Some(token) {
        return Ok(());
      }
      var op := ops[i];
      match outcome {
        case TimedOut =>
          WriteOperation(b, i, op.(processingUntil := None, nextAttemptAt := now + RetryDelay(attempts)));
          return Ok(());
        case Declined(_) =>
          WriteOperation(b, i, op.(status := Failed, processingUntil := None));
          return Ok(());
        case Success(_) =>
      }
      r := ApplySuccess(b, i, token, attempts, outcome.providerId, now);
    }

    /** A success under the current lease: refused, rolled back by the unique column, or credited. */
    method ApplySuccess(b: Id, i: nat, ghost token: Time, ghost attempts: nat, id: string,
        now: Time) returns (r: Result<()>)
      requires b in bookings && b in deposits && i < |All(operations, b)|
      requires All(operations, b)[i].status == Waiting && All(operations, b)[i].processingUntil == Some(token)
      modifies this`operations, this`deposits, this`bookings, this`history
      ensures var tx := ApplyTx(old(DealAt(b)), i, token, attempts, Success(id), now);
              if old(OperationIdStored(id)) && Credits(old(DealAt(b)), i, token)
              then Untouched() && r == Err(DuplicateProviderId)
              else Wrote(b, tx.After(old(DealAt(b)))) && r == Answered(tx)
    {
      ApplyCases(DealAt(b), i, token, attempts, Success(id), now);
      assert DealAt(b).ops == All(operations, b) && DealAt(b).deposit == Get(deposits, b);
      hide DealAt, ApplyTx, RetryDelay, CompleteTx, CreditedDeal, PaysOff, OperationIdStored;
      var op := All(operations, b)[i];
      if deposits[b].status != Resolving { return Ok(()); }
      if (op.kind != RefundOp && op.kind != ReleaseOp) ||
         deposits[b].refunded + deposits[b].released + op.amount > deposits[b].amount
      {
        return Err(Overspend);
      }
      if OperationIdStored(id) { return Err(DuplicateProviderId); }
      CreditSuccess(b, i, id, now);
      return Ok(());
    }

    /** Credits a succeeded leg, resolves the deposit when it is the last one, and then tries the completion. */
    method CreditSuccess(b: Id, i: nat, id: string, now: Time)
      requires b in bookings && b in deposits && deposits[b].status == Resolving && i < |All(operations, b)|
      requires All(operations, b)[i].kind == RefundOp || All(operations, b)[i].kind == ReleaseOp
      requires deposits[b].refunded + deposits[b].released + All(operations, b)[i].amount <= deposits[b].amount
      modifies this`operations, this`deposits, this`bookings, this`history
      ensures i < |old(DealAt(b)).ops| && old(DealAt(b)).deposit.Some?
      ensures var credited, paid := CreditedDeal(old(DealAt(b)), i, id), PaysOff(old(DealAt(b)), i, id);
              Wrote(b, if paid then CompleteTx(credited, now, DepositSettled).After(credited) else credited) &&
              (paid ==> CompleteTx(credited, now, DepositSettled).Commit?)
    {
      hide DealAt, CompleteTx, CreditedDeal;
      var resolved := CreditLeg(b, i, id);
      if resolved {
        SettledCommits(DealAt(b), now);
        var done := CompleteBookingAfterReturn(b, now, DepositSettled);
      }
    }

    method CreditLeg(b: Id, i: nat, id: string) returns (resolved: bool)
      requires b in bookings && b in deposits && i < |All(operations, b)|
      requires All(operations, b)[i].kind == RefundOp || All(operations, b)[i].kind == ReleaseOp
      modifies this`operations, this`deposits
      ensures i < |old(DealAt(b)).ops| && old(DealAt(b)).deposit.Some?
      ensures OnlyRows(b) && DealAt(b) == CreditedDeal(old(DealAt(b)), i, id) &&
              resolved == PaysOff(old(DealAt(b)), i, id)
      ensures resolved ==> DealAt(b).deposit.Some? && FullySettled(DealAt(b).deposit.value)
    {
      assert DealAt(b).ops == All(operations, b) && DealAt(b).deposit == Some(deposits[b]);
      CreditedIs(DealAt(b), i, id);
      hide LegPaid, DealAt, DecisionPaid, CreditedDeal, PaysOff;
      var op, dep := All(operations, b)[i], deposits[b];
      var refunded := if op.kind == RefundOp then dep.refunded + op.amount else dep.refunded;
      var released := if op.kind == ReleaseOp then dep.released + op.amount else dep.released;
      resolved := MarkSucceeded(b, i, id, refunded + released == dep.amount);
      WriteDeposit(b, dep.(refunded := refunded, released := released,
        status := if resolved then Resolved else Resolving));
    }

    /** Marks the operation; when the amounts are `whole`, looks whether a decision is paid in every leg. */
    method MarkSucceeded(b: Id, i: nat, id: string, whole: bool) returns (resolved: bool)
      requires b in bookings && i < |All(operations, b)|
      modifies this`operations
      ensures var d := old(DealAt(b));
              var ops := d.ops[i := Done(d.ops[i], id)];
              OnlyRows(b) && DealAt(b) == d.(ops := ops) && (resolved <==> whole && DecisionPaid(ops, d.dispute))
    {
      hide LegPaid;
      WriteOperation(b, i, Done(All(operations, b)[i], id));
      resolved := whole;
      if resolved && b in disputes && (disputes[b].status == UnderReview || disputes[b].status == Decided) {
        resolved := DecisionLegsPaid(b, disputes[b].refund, disputes[b].release);
      }
    }

    method WriteDeposit(b: Id, dep: Deposit)
      requires b in bookings
      modifies this`deposits
      ensures OnlyRows(b) && DealAt(b) == old(DealAt(b)).(deposit := Some(dep))
    {
      deposits := deposits[b := dep];
    }

    /** The claim transaction. */
    method LeaseOne(b: Id, i: nat, now: Time) returns (claimed: Option<Operation>)
      requires b in bookings
      modifies this`operations, this`claims
      ensures claimed.Some? <==> Claimable(old(DealAt(b)), i, now)
      ensures claimed.None? ==> State() == old(State())
      ensures claimed.Some? ==>
                i < |old(DealAt(b)).ops| && SameOrder(claimed.value, old(DealAt(b)).ops[i]) &&
                State() == Next(old(State()), TakeLease(b, i, now)) &&
                claims == old(claims) + [Claim(b, i, now + LEASE_MS, claimed.value.attempts, now)]
    {
      hide Next, ClaimTx, DealAt;
      ghost var before := State();
      LeaseIsNext(before, b, i, now);
      claimed := ClaimOperation(b, i, now);
      if claimed.None? {
        assert State().deals == before.deals;
      } else {
        assert State().deals == before.deals[b := DealAt(b)];
        claims := claims + [Claim(b, i, now + LEASE_MS, claimed.value.attempts, now)];
      }
    }

    /** The transaction that applies what the provider answered. */
    method ReportOne(b: Id, i: nat, attempts: nat, outcome: ProviderResult, now: Time, ghost k: nat)
      requires b in bookings && k < |claims| && claims[k] == Claim(b, i, now + LEASE_MS, attempts, now)
      modifies this`operations, this`deposits, this`bookings, this`history
      ensures State() == Next(old(State()), ReportOutcome(k, outcome))
    {
      hide Next, ApplyTx, DealAt, Credits, OperationIdTaken, OperationIdStored;
      ghost var before := State();
      if outcome.Success? { IdsAgree(outcome.providerId); }
      ReportIsNext(before, k, outcome);
      if outcome.Success? && !Credits(DealAt(b), i, now + LEASE_MS) {
        UncreditedIdle(DealAt(b), i, now + LEASE_MS, attempts, outcome.providerId, now);
      }
      var r := ApplyOutcome(b, i, now + LEASE_MS, attempts, outcome, now);
      assert State().deals == before.deals[b := DealAt(b)];
    }

    /**
     * One candidate of the worker: claim, call the provider outside any transaction, apply. A call that
     * throws counts as a timeout.
     */
    method ProcessOne(provider: FakeSafeDealProvider, keyText: KeyText, b: Id, i: nat, now: Time)
      returns (processed: nat, ghost outcome: ProviderResult)
      modifies this, provider
      ensures processed != 0 <==> DueNow(old(State()), (b, i), now)
      ensures processed == 0 ==> State() == old(State())
      ensures processed != 0 ==>
                processed == 1 && State() == Next(Next(old(State()), TakeLease(b, i, now)),
                    ReportOutcome(|old(claims)|, outcome))
      ensures processed == 0 ==> provider.operations == old(provider.operations)
      ensures processed != 0 ==>
                b in old(bookings) && i < |old(DealAt(b)).ops| &&
                var q := RequestOf(b, old(DealAt(b)).ops[i], keyText);
                outcome == Heard(Reply(old(provider.operations), q, provider.digest)) &&
                provider.operations == Recorded(old(provider.operations), q, provider.digest)
    {
      hide DealAt, Next, IsDue, ClaimTx;
      outcome := TimedOut;
      if b !in bookings { return 0, outcome; }
      var claimed := LeaseOne(b, i, now);
      if claimed.None? { return 0, outcome; }
      ghost var leased := State();
      var answer := provider.Execute(RequestOf(b, claimed.value, keyText));
      assert State() == leased;
      var got := Heard(answer);
      ReportOne(b, i, claimed.value.attempts, got, now, |claims| - 1);
      return 1, got;
    }

    /** The rows of the candidate query. */
    function PendingOps(now: Time): set<(Id, nat)>
      reads this`bookings, this`operations
    {
      set b, i | b in bookings && 0 <= i < |All(operations, b)| && IsDue(All(operations, b)[i], now) :: (b, i)
    }

    /** The candidate query: ordered by the moment of the next attempt, and cut at the size of a batch. */
    method FindPending(now: Time) returns (batch: seq<(Id, nat)>)
      ensures Picks(State(), batch, now)
    {
      var left := PendingOps(now);
      PendingAreDue(now);
      hide DueNow, NextAt, DealAt, All;
      ghost var m := State();
      batch := [];
      while left != {} && |batch| < BATCH_SIZE
        invariant |batch| <= BATCH_SIZE
        invariant forall c :: DueNow(m, c, now) <==> c in left || c in batch
        invariant forall c | c in left ::
                  c !in batch && c.0 in bookings && c.1 < |All(operations, c.0)| &&
                  NextAt(m, c) == All(operations, c.0)[c.1].nextAttemptAt
        invariant forall n, c | 0 <= n < |batch| && c in left :: NextAt(m, batch[n]) <= NextAt(m, c)
        invariant forall n, k | 0 <= n < k < |batch| ::
                  batch[n] != batch[k] &&
                  NextAt(m, batch[n]) <= NextAt(m, batch[k])
        decreases left
      {
        var c := FirstOf(left, m);
        batch := batch + [c];
        left := left - {c};
      }
    }

    /** The next row in the query's order. */
    method FirstOf(left: set<(Id, nat)>, ghost m: Market) returns (c: (Id, nat))
      requires left != {}
      requires forall x | x in left ::
                 x.0 in bookings && x.1 < |All(operations, x.0)| &&
                 NextAt(m, x) == All(operations, x.0)[x.1].nextAttemptAt
      ensures c in left && forall x | x in left :: NextAt(m, c) <= NextAt(m, x)
    {
      hide NextAt, All;
      ghost var some := Earliest(m, left);
      c :| c in left && forall x | x in left ::
        All(operations, c.0)[c.1].nextAttemptAt <= All(operations, x.0)[x.1].nextAttemptAt;
    }

    lemma PendingAreDue(now: Time)
      ensures forall c :: DueNow(State(), c, now) <==> c in PendingOps(now)
      ensures forall c | c in PendingOps(now) ::
                c.0 in bookings && c.1 < |All(operations, c.0)| &&
                    NextAt(State(), c) == All(operations, c.0)[c.1].nextAttemptAt
    {
      forall c ensures DueNow(State(), c, now) <==> c in PendingOps(now) {
        if c.0 in bookings { assert State().deals[c.0].ops == All(operations, c.0); }
        assert c == (c.0, c.1);
      }
    }

    /** Processes the batch one by one: all of it, since none of its operations takes the turn of another. */
    method ProcessPending(provider: FakeSafeDealProvider, keyText: KeyText, fakePolicy: bool, now: Time)
      returns (r: Result<nat>, ghost batch: seq<(Id, nat)>, ghost log: seq<Command>)
      requires Valid()
      modifies this, provider
      ensures Valid() && State() == Run(old(State()), log)
      ensures !fakePolicy ==> r == Err(PolicyRequired) && log == []
      ensures fakePolicy ==> Picks(old(State()), batch, now) && r == Ok(|batch|) && |log| == 2 * |batch|
      ensures forall n | 0 <= n < |log| / 2 ::
              log[2 * n] == TakeLease(batch[n].0, batch[n].1, now) &&
              log[2 * n + 1].ReportOutcome?
    {
      batch, log := [], [];
      if !fakePolicy { return Err(PolicyRequired), batch, log; }
      var pending := FindPending(now);
      var processed := 0;
      batch := pending;
      log, processed := ProcessAll(provider, keyText, pending, now);
      return Ok(processed), batch, log;
    }

    method ProcessAll(provider: FakeSafeDealProvider, keyText: KeyText, batch: seq<(Id, nat)>, now: Time)
      returns (ghost log: seq<Command>, processed: nat)
      requires Valid() && forall n | 0 <= n < |batch| :: DueNow(State(), batch[n], now)
      requires forall n, k | 0 <= n < k < |batch| :: batch[n] != batch[k]
      modifies this, provider
      ensures Valid() && State() == Run(old(State()), log)
      ensures processed == |batch| && |log| == 2 * |batch|
      ensures forall n | 0 <= n < |log| / 2 ::
              log[2 * n] == TakeLease(batch[n].0, batch[n].1, now) &&
              log[2 * n + 1].ReportOutcome?
    {
      hide MarketOk, DueNow, Next, Run, DealAt;
      processed, log := 0, [];
      ghost var start := State();
      RunAppendNothing(start);
      for n := 0 to |batch|
        invariant Valid() && State() == Run(start, log) && |log| == 2 * n && processed == n
        invariant forall k | n <= k < |batch| :: DueNow(State(), batch[k], now)
        invariant forall k | 0 <= k < |log| / 2 ::
                  log[2 * k] == TakeLease(batch[k].0, batch[k].1, now) &&
                  log[2 * k + 1].ReportOutcome?
      {
        ghost var here := State();
        var one, outcome := ProcessOne(provider, keyText, batch[n].0, batch[n].1, now);
        ghost var lease, report := TakeLease(batch[n].0, batch[n].1, now), ReportOutcome(|here.claims|, outcome);
        forall k | n < k < |batch| ensures DueNow(State(), batch[k], now) {
          OthersStayDue(here, batch[n].0, batch[n].1, outcome, batch[k], now);
        }
        NextKeeps(here, lease);
        NextKeeps(Next(here, lease), report);
        RunAppend(start, log, lease);
        RunAppend(start, log + [lease], report);
        log := log + [lease] + [report];
        processed := processed + one;
      }
    }

    // -------------------------------------------------------------- commands across bookings

    predicate Taken(item: Id, start: int, end: int)
      reads this`periods
    {
      exists p | p in periods :: periods[p].item == item && Overlap(periods[p].start, periods[p].end, start, end)
    }

    predicate Reserved(except: set<Id>, item: Id, start: int, end: int)
      reads this`bookings
    {
      exists b | b in bookings :: b !in except && bookings[b].item == item &&
        Overlap(bookings[b].start, bookings[b].end, start, end) && Reserving(bookings[b].status)
    }

    /** The live requests of an item that overlap some days. */
    function Rivals(item: Id, start: int, end: int, now: Time): set<Id>
      reads this`bookings
    {
      set b | b in bookings && bookings[b].item == item && Overlap(bookings[b].start, bookings[b].end, start, end) &&
              bookings[b].status == Pending && bookings[b].expiresAt.Some? && bookings[b].expiresAt.value > now
    }

    function WaitingOf(borrower: Id, now: Time): set<Id>
      reads this`bookings
    {
      set b | b in bookings && bookings[b].borrower == borrower &&
              bookings[b].status == Pending && bookings[b].expiresAt.Some? && bookings[b].expiresAt.value > now
    }

    /** The queries over the tables are the queries of the model. */
    lemma QueriesAgree(except: set<Id>, borrower: Id, item: Id, start: int, end: int)
      ensures Taken(item, start, end) == CalendarTaken(State(), item, start, end)
      ensures Reserved(except, item, start, end) == ReservedBy(State(), except, item, start, end)
      ensures Rivals(item, start, end, clock) == Competing(State(), item, start, end)
      ensures WaitingOf(borrower, clock) == ActivePending(State(), borrower)
    {
      var m := State();
      assert forall b | b in bookings :: m.deals[b].item == bookings[b].item && m.deals[b].status == bookings[b].status;
    }

    /** One of the two blocked the other. */
    predicate Blocked(borrower: Id, listing: Option<Listing>)
      reads this`userBlocks
    {
      listing.Some? && ((borrower, listing.value.owner) in userBlocks || (listing.value.owner, borrower) in userBlocks)
    }

    /** The user is there, neither blocked by an administrator nor closed. */
    predicate InGoodStanding(user: Id)
      reads this`users
    {
      user in users && !users[user].blocked && !users[user].deleted
    }

    /** The item row `create` selects: approved, and of an owner in good standing. */
    function Offered(item: Id): Option<Listing>
      reads this`items, this`users
    {
      if item in items && items[item].approved && InGoodStanding(items[item].owner)
      then Some(Listing(items[item].owner, items[item].pricePerDay, items[item].deposit)) else None
    }

    /** Behind the legal gate one command of the model; before it nothing. */
    method Create(
      offer: Option<string>, cancellation: Option<string>, consent: Legal.Consent,
      id: Id, req: Request, policy: Policy, today: int, now: Time)
      returns (r: Result<Id>)
      requires Valid() && id !in bookings && now == clock
      requires id !in payments && id !in deposits && id !in operations && id !in disputes && id !in acts &&
               id !in history
      modifies this`bookings, this`deposits, this`history
      ensures var gate := Legal.GateRefusal(offer, cancellation, consent);
              var listing := old(Offered(req.item));
              if gate.Some? then State() == old(State()) && r == Err(gate.value)
              else
                State() == Next(old(State()), Book(id, req, listing, policy, old(Blocked(req.borrower, listing)),
                    today)) &&
                r == BookAnswer(id, BookTx(old(State()), req, listing, policy, old(Blocked(req.borrower, listing)),
                    today))
      ensures req.item !in items || !items[req.item].approved || items[req.item].owner !in users ||
              users[items[req.item].owner].blocked || users[items[req.item].owner].deleted ||
              (req.borrower, items[req.item].owner) in userBlocks || (items[req.item].owner, req.borrower) in userBlocks
              ==> State() == old(State())
    {
      hide Next, BookTx, DealAt, MarketOk, BookAnswer, Legal.GateRefusal;
      var gate := Legal.GateRefusal(offer, cancellation, consent);
      if gate.Some? { return Err(gate.value); }
      ghost var blocked, before := Blocked(req.borrower, Offered(req.item)), State();
      if Offered(req.item).None? || blocked {
        NothingBooked(before, id, req, Offered(req.item), policy, blocked, today);
      }
      r := BookRequested(id, req, Offered(req.item), policy, today, now);
    }

    method BookRequested(id: Id, req: Request, listing: Option<Listing>, policy: Policy, today: int, now: Time)
      returns (r: Result<Id>)
      requires Valid() && id !in bookings && now == clock
      requires id !in payments && id !in deposits && id !in operations && id !in disputes && id !in acts &&
               id !in history
      modifies this`bookings, this`deposits, this`history
      ensures State() == Next(old(State()), Book(id, req, listing, policy, old(Blocked(req.borrower, listing)), today))
      ensures r == BookAnswer(id, BookTx(old(State()), req, listing, policy, old(Blocked(req.borrower, listing)),
              today))
    {
      var blocked := Blocked(req.borrower, listing);
      hide MarketOk, Competing, ActivePending, ReservedBy, CalendarTaken, NewTerms, ParsePeriod, NewDeal, Next, DealAt;
      BookIsNext(State(), id, req, listing, policy, blocked, today);
      QueriesAgree({}, req.borrower, req.item, req.start, req.end);
      var days := ParsePeriod(req.start, req.end, today);
      if days.None? { return Err(BadRequest); }
      var repeated := set b | b in bookings && bookings[b].borrower == req.borrower &&
          bookings[b].request == req.request;
      KnownRequest(req);
      if repeated != {} {
        var known :| known in repeated;
        if bookings[known].payload != req.payload { return Err(KeyReused); }
        return Ok(known);
      }
      if |WaitingOf(req.borrower, now)| >= MAX_ACTIVE_PENDING { return Err(TooMany); }
      if listing.None? { return Err(NotFound); }
      if listing.value.owner == req.borrower { return Err(OwnItem); }
      if !policy.fake && listing.value.deposit != 0 { return Err(DepositNotSupported); }
      if policy.fake && listing.value.deposit > policy.maximumMinor { return Err(BadRequest); }
      if blocked { return Err(InteractionBlocked); }
      if Taken(req.item, req.start, req.end) { return Err(CalendarConflict); }
      if Reserved({}, req.item, req.start, req.end) { return Err(BookingConflict); }
      if |Rivals(req.item, req.start, req.end, now)| >= MAX_COMPETING_PENDING { return Err(TooMany); }
      var terms := NewTerms(listing.value, policy, days.value);
      if terms.None? { return Err(BadRequest); }
      InsertBooking(id, req, listing.value, terms.value, now);
      return Ok(id);
    }

    lemma KnownRequest(req: Request)
      requires Valid()
      ensures var repeated := set b | b in bookings && bookings[b].borrower == req.borrower &&
              bookings[b].request == req.request;
              var found := RequestIn(State(), req.borrower, req.request);
              (repeated == {} <==> found.None?) && (found.Some? ==>
                  repeated == {found.value} && State().deals[found.value].payload == bookings[found.value].payload)
    {
      hide DealsOk, RequestsClear, NoDoubleBooking, Capped, LeasesFenced;
      var m := State();
      assert forall b | b in bookings ::
        m.deals[b].borrower == bookings[b].borrower &&
        m.deals[b].request == bookings[b].request;
      var repeated := set b | b in bookings && bookings[b].borrower == req.borrower &&
          bookings[b].request == req.request;
      var found := RequestIn(m, req.borrower, req.request);
      if found.Some? {
        assert found.value in repeated;
        assert forall b | b in repeated :: b in m.deals && b == found.value;
      }
    }

    /** The inserts of a new booking: its row, its deposit when the terms ask for one, its first history entry. */
    method InsertBooking(id: Id, req: Request, listing: Listing, terms: Terms, now: Time)
      requires id !in bookings
      requires id !in payments && id !in deposits && id !in operations && id !in disputes && id !in acts &&
               id !in history
      modifies this`bookings, this`deposits, this`history
      ensures State() == With(old(State()), id, NewDeal(req, listing, terms, now))
    {
      var row := Booking(req.item, req.borrower, listing.owner, req.request, req.payload, req.start, req.end, terms,
        Pending, Some(now + PENDING_TTL_MS), None);
      bookings := bookings[id := row];
      if terms.windowMs.Some? {
        deposits := deposits[id := Deposit(terms.depositMinor, Unpaid, None, 0, 0)];
      }
      history := history[id := [Entry(Some(req.borrower), CommandName.Create, None, Pending)]];
      assert DealAt(id) == NewDeal(req, listing, terms, now);
      assert State().deals == old(State()).deals[id := DealAt(id)];
    }

    method Confirm(lender: Id, b: Id, now: Time) returns (r: Result<()>)
      requires now == clock
      modifies this`bookings, this`deposits, this`history
      ensures State() == Next(old(State()), ConfirmBooking(b, lender))
      ensures r == match ConfirmRefusal(old(State()), b, lender) case None => Ok(()) case Some(e) => Err(e)
    {
      hide Competing, ReservedBy, CalendarTaken, ActivePending, Next, Exec;
      if ConfirmRefusal(State(), b, lender).Some? { ConfirmRefused(State(), b, lender); }
      if b !in bookings || bookings[b].lender != lender { return Err(NotFound); }
      assert State().deals[b] == DealAt(b);
      ghost var was := State();
      var row := bookings[b];
      QueriesAgree({b}, row.borrower, row.item, row.start, row.end);
      if row.status != Pending || row.expiresAt.None? || row.expiresAt.value <= now { return Err(InvalidTransition); }
      if Taken(row.item, row.start, row.end) { return Err(CalendarConflict); }
      if Reserved({b}, row.item, row.start, row.end) { return Err(BookingConflict); }
      var competitors := Rivals(row.item, row.start, row.end, now) - {b};
      WriteSelection(b, lender, competitors);
      ConfirmIsNext(was, b, lender, State().deals);
      return Ok(());
    }

    /** The update of the selected booking and the bulk updates of its competitors. */
    method WriteSelection(b: Id, lender: Id, competitors: set<Id>)
      requires b in bookings && b !in competitors && competitors <= bookings.Keys
      requires bookings[b].status == Pending && forall x | x in competitors :: bookings[x].status == Pending
      modifies this`bookings, this`deposits, this`history
      ensures bookings.Keys == old(bookings.Keys)
      ensures forall x | x in bookings ::
                DealAt(x) == if x == b then Exec(old(DealAt(x)), Select(lender))
                             else if x in competitors then Exec(old(DealAt(x)), Drop(lender)) else old(DealAt(x))
    {
      assert forall x | x in bookings :: DealAt(x).status == bookings[x].status;
      hide DealAt, Exec, VoidUnpaid, Log, CalledOff;
      SelectionRows(DealAt(b), lender);
      WriteStatus(b, Confirmed, None, None, Some(lender), CommandName.Confirm);
      forall x | x in competitors ensures x in bookings && DealAt(x).status == Pending { assert x != b; }
      DropRivals(competitors, lender);
    }

    method DropRivals(rivals: set<Id>, lender: Id)
      requires rivals <= bookings.Keys && forall x | x in rivals :: DealAt(x).status == Pending
      modifies this`bookings, this`deposits, this`history
      ensures bookings.Keys == old(bookings.Keys)
      ensures forall x | x in bookings ::
                DealAt(x) == if x in rivals then Exec(old(DealAt(x)), Drop(lender)) else old(DealAt(x))
    {
      hide DealAt, Exec, VoidUnpaid, CalledOff;
      forall x | x in rivals
        ensures Exec(DealAt(x), Drop(lender)) ==
                VoidUnpaid(CalledOff(DealAt(x), lender, CancelCompeting, CompetingConfirmed))
      {
        SelectionRows(DealAt(x), lender);
      }
      CancelAll(rivals, lender, CancelCompeting, CompetingConfirmed);
      VoidDeposits(rivals);
    }

    method CancelAll(ids: set<Id>, actor: Id, command: CommandName, reason: Reason)
      requires ids <= bookings.Keys && forall x | x in ids :: DealAt(x).status == Pending
      modifies this`bookings, this`history
      ensures bookings.Keys == old(bookings.Keys)
      ensures forall x | x in bookings ::
                DealAt(x) == if x in ids then CalledOff(old(DealAt(x)), actor, command, reason) else old(DealAt(x))
    {
      hide DealAt;
      UpdateAll(ids, reason);
      LogAll(ids, Entry(Some(actor), command, Some(Pending), Cancelled));
    }

    method UpdateAll(ids: set<Id>, reason: Reason)
      modifies this`bookings
      ensures bookings.Keys == old(bookings.Keys)
      ensures forall x | x in bookings ::
                DealAt(x) == if x in ids then old(DealAt(x)).(status := Cancelled, reason := Some(reason),
                    expiresAt := None)
                             else old(DealAt(x))
    {
      bookings := map x | x in bookings ::
        if x in ids then bookings[x].(status := Cancelled, reason := Some(reason), expiresAt := None) else bookings[x];
    }

    method LogAll(ids: set<Id>, entry: Entry)
      modifies this`history
      ensures forall x | x in bookings ::
                DealAt(x) == if x in ids then old(DealAt(x)).(history := old(DealAt(x)).history + [entry])
                    else old(DealAt(x))
    {
      history := map x | x in history.Keys + ids :: if x in ids then All(history, x) + [entry] else All(history, x);
    }

    method VoidDeposits(ids: set<Id>)
      modifies this`deposits
      ensures forall x | x in bookings :: DealAt(x) == if x in ids then VoidUnpaid(old(DealAt(x))) else old(DealAt(x))
    {
      deposits := map x | x in deposits ::
        if x in ids && deposits[x].status == Unpaid then deposits[x].(status := Voided) else deposits[x];
    }

    method BlockPair(blocker: Id, blocked: Id, now: Time) returns (r: Result<()>)
      requires now == clock
      modifies this`bookings, this`history, this`userBlocks
      ensures r == if blocker == blocked then Err(BadRequest)
                   else if !InGoodStanding(blocked) then Err(NotFound) else Ok(())
      ensures State() == if r.Ok? then Next(old(State()), BlockUser(blocker, blocked)) else old(State())
      ensures userBlocks == if r.Ok? then old(userBlocks) + {(blocker, blocked)} else old(userBlocks)
      ensures r.Ok? ==> forall offer: Listing ::
                (offer.owner == blocked ==> Blocked(blocker, Some(offer))) &&
                (offer.owner == blocker ==> Blocked(blocked, Some(offer)))
    {
      if blocker == blocked { return Err(BadRequest); }
      if !InGoodStanding(blocked) { return Err(NotFound); }
      hide Next, DealAt;
      ghost var was := State();
      userBlocks := userBlocks + {(blocker, blocked)};
      assert State().deals == was.deals;
      CancelBetween(blocker, blocked, now);
      return Ok(());
    }

    /** Cancels the live requests the two sides made to each other. */
    method CancelBetween(blocker: Id, blocked: Id, now: Time)
      requires now == clock && blocker != blocked
      modifies this`bookings, this`history
      ensures State() == Next(old(State()), BlockUser(blocker, blocked))
    {
      var cancellable := set b | b in bookings && bookings[b].status == Pending && bookings[b].expiresAt.Some? &&
        bookings[b].expiresAt.value > now &&
        ((bookings[b].borrower == blocker && bookings[b].lender == blocked) ||
            (bookings[b].borrower == blocked && bookings[b].lender == blocker));
      ghost var was := State();
      assert forall x | x in bookings ::
        (x in cancellable <==> Between(DealAt(x), blocker, blocked, now)) &&
        (x in cancellable ==> DealAt(x).status == Pending);
      hide DealAt, CalledOff, Between, Next;
      CancelAll(cancellable, blocker, BlockCounterparty, ParticipantBlocked);
      BlockIsNext(was, blocker, blocked, State().deals);
    }

    method AddUnavailable(id: Id, owned: bool, item: Id, start: int, end: int, today: int) returns (r: Result<()>)
      requires id !in periods
      modifies this`periods
      ensures State() == Next(old(State()), AddPeriod(id, owned, item, start, end, today))
      ensures r.Ok? <==> id in periods
    {
      hide ReservedBy, CalendarTaken, Competing, ActivePending;
      QueriesAgree({}, 0, item, start, end);
      if ParsePeriod(start, end, today).None? { return Err(BadRequest); }
      if !owned { return Err(NotFound); }
      if Reserved({}, item, start, end) { return Err(BookingConflict); }
      if Taken(item, start, end) { return Err(CalendarConflict); }
      periods := periods[id := Period(item, start, end)];
      return Ok(());
    }

    method RemoveUnavailable(id: Id, owned: bool, item: Id) returns (r: Result<()>)
      modifies this`periods
      ensures State() == Next(old(State()), RemovePeriod(id, owned, item))
      ensures r.Ok? <==> owned && id in old(periods) && old(periods)[id].item == item
    {
      if !owned || id !in periods || periods[id].item != item { return Err(NotFound); }
      periods := periods - {id};
      return Ok(());
    }
  }

  function BookAnswer(id: Id, booked: Booked): Result<Id> {
    match booked
    case New(_) => Ok(id)
    case Repeated(known) => Ok(known)
    case Refused(e) => Err(e)
  }

  function Trimmed(s: Step): Step {
    match s
    case Decide(admin, fakePolicy, decision, refund, release, command, now) =>
      Decide(admin, fakePolicy, decision, refund, release, Trim(command), now)
    case Repeat(i, fakePolicy, command, now) => Repeat(i, fakePolicy, Trim(command), now)
    case _ => s
  }

  function Answered<T>(tx: Tx<T>): Result<T> {
    match tx
    case Commit(_, reply) => Ok(reply)
    case Abort(e) => Err(e)
  }
}
