/** The main results about money and workers, for every state any run reaches. */
module Settlement {
  import opened Domain
  import opened Deals
  import opened Journal
  import opened DealInvariant
  import opened DealSteps
  import opened Evolution
  import opened Market
  import opened MarketInvariant
  import opened MarketRuns

  ghost predicate Reachable(m: Market) {
    exists clock, cs :: Run(Start(clock), cs) == m
  }

  lemma ReachableOk(m: Market)
    requires Reachable(m)
    ensures MarketOk(m)
  {
    var clock, cs :| Run(Start(clock), cs) == m;
    StartOk(clock);
    RunKeeps(Start(clock), cs);
  }

  lemma ReachableNext(m: Market, c: Command)
    requires Reachable(m)
    ensures Reachable(Next(m, c))
  {
    var clock, cs :| Run(Start(clock), cs) == m;
    RunAppend(Start(clock), cs, c);
  }

  ghost predicate Row(m: Market, b: Id, d: Deal) {
    Reachable(m) && b in m.deals && d == m.deals[b]
  }

  lemma RowOk(m: Market, b: Id, d: Deal)
    requires Row(m, b, d)
    ensures Inv(d)
  {
    hide Reachable, Inv, RequestsUnique, RequestsClear, NoDoubleBooking, Capped, LeasesFenced;
    ReachableOk(m);
  }

  // ---------------------------------------------------------------- conservation

  /**
   * The deposit is always refunded + released + waiting + failed-without-retry; it is RESOLVED exactly
   * when the last two are gone, and what is refunded or released is what succeeded operations moved.
   */
  lemma Conservation(m: Market, b: Id, d: Deal)
    requires Row(m, b, d) && d.deposit.Some?
    ensures var dep, n := d.deposit.value, |d.ops|;
            && dep.refunded == Credited(d.ops, RefundOp, n) && dep.released == Credited(d.ops, ReleaseOp, n)
            && (dep.status == Resolving || dep.status == Resolved ==>
                  dep.amount == dep.refunded + dep.released + Outstanding(d.ops, n))
            && (dep.status == Resolving ==> Outstanding(d.ops, n) > 0)
            && (dep.status == Resolved ==> Outstanding(d.ops, n) == 0)
            && (dep.status != Resolving && dep.status != Resolved ==>
               dep.refunded == dep.released == Outstanding(d.ops, n) == 0)
  {
    hide Row, StatusOk, ActsOk, HistoryOk, TermsOk;
    RowOk(m, b, d);
    if |d.ops| == 1 && IsHold(d.ops[0]) { OnlyHeld(d.ops); }
  }

  /**
   * Retry chains are disjoint ascending paths of one kind and amount: a retry names an earlier failed
   * operation no other retry names, and of two operations of a kind the earlier one failed and was
   * retried while the later one is a retry.
   */
  lemma RetryChains(m: Market, b: Id, d: Deal, i: nat, j: nat)
    requires Row(m, b, d) && i < j < |d.ops|
    ensures d.ops[j].retryOf.Some? ==> d.ops[j].retryOf.value < j && d.ops[j].retryOf != d.ops[i].retryOf
    ensures d.ops[j].retryOf == Some(i) ==>
              d.ops[i].status == Failed && d.ops[j].kind == d.ops[i].kind && d.ops[j].amount == d.ops[i].amount
    ensures d.ops[i].kind == d.ops[j].kind ==>
              d.ops[i].status == Failed && HasRetry(d.ops, i) && d.ops[j].retryOf.Some?
  {
    hide Row, Inv, Chained;
    RowOk(m, b, d);
    assert Chained(d.ops) by { OpsChained(d); }
    ChainFacts(d.ops, i, j);
  }

  lemma OpsChained(d: Deal)
    requires Inv(d)
    ensures Chained(d.ops)
  {
  }

  lemma ChainFacts(ops: seq<Operation>, i: nat, j: nat)
    requires Chained(ops) && i < j < |ops|
    ensures ops[j].retryOf.Some? ==> ops[j].retryOf.value < j && ops[j].retryOf != ops[i].retryOf
    ensures ops[j].retryOf == Some(i) ==>
            ops[i].status == Failed && ops[j].kind == ops[i].kind &&
            ops[j].amount == ops[i].amount
    ensures ops[i].kind == ops[j].kind ==> ops[i].status == Failed && HasRetry(ops, i) && ops[j].retryOf.Some?
  {
    if ops[i].kind == ops[j].kind { EarlierFailed(ops, i, j); }
  }

  /**
   * Whatever a worker reports commits. A success of a waiting operation always meets a RESOLVING deposit,
   * credits exactly that operation, and resolves the deposit exactly when nothing is left outstanding.
   */
  lemma ReportsCommit(m: Market, b: Id, d: Deal, i: nat, token: Time, attempts: nat, outcome: ProviderResult, now: Time)
    requires Row(m, b, d)
    ensures ApplyTx(d, i, token, attempts, outcome, now).Commit?
    ensures i < |d.ops| && d.ops[i].status == Waiting && d.ops[i].processingUntil == Some(token) && outcome.Success? ==>
              var next := ApplyTx(d, i, token, attempts, outcome, now).deal;
              d.deposit.Some? && next.deposit.Some? && d.deposit.value.status == Resolving && next.status == d.status &&
              next.ops[i] == Done(d.ops[i], outcome.providerId) &&
              next.deposit.value.refunded + next.deposit.value.released
                == d.deposit.value.refunded + d.deposit.value.released + d.ops[i].amount <= d.deposit.value.amount &&
              (next.deposit.value.status == Resolved <==> Outstanding(next.ops, |next.ops|) == 0)
  {
    hide Row, Inv, Settling, CompleteTx, RetryDelay, LegPaid;
    RowOk(m, b, d);
    ApplyKeeps(d, i, token, attempts, outcome, now);
    if i < |d.ops| && d.ops[i].status == Waiting && d.ops[i].processingUntil == Some(token) && outcome.Success? {
      WithinDeposit(d, i);
      SuccessKeeps(d, i, token, attempts, outcome.providerId, now);
      ResolvedMeansSettled(PaidOut(d, i, outcome.providerId));
    }
  }

  /** The operation still waits under this lease. */
  predicate Current(m: Market, k: nat)
    requires k < |m.claims|
  {
    var c := m.claims[k];
    c.booking in m.deals && c.i < |m.deals[c.booking].ops| && m.deals[c.booking].ops[c.i].status == Waiting &&
    m.deals[c.booking].ops[c.i].processingUntil == Some(c.token)
  }

  /**
   * A report takes effect exactly when its lease is the current one and it would not store a provider id some
   * operation has: then its transaction is rolled back, and the operation waits on under the lease. No report of a
   * reachable state aborts otherwise.
   */
  lemma ReportTakesEffectIff(m: Market, k: nat, outcome: ProviderResult)
    requires Reachable(m) && k < |m.claims|
    ensures Next(m, ReportOutcome(k, outcome)) != m <==>
              Current(m, k) && !(outcome.Success? && OperationIdTaken(m, outcome.providerId))
    ensures var c := m.claims[k];
            c.booking in m.deals && ApplyTx(m.deals[c.booking], c.i, c.token, c.attempts, outcome, c.now).Commit?
  {
    hide Reachable, Inv, ApplyTx, OperationIdTaken, MarketOk, CompleteTx;
    ReachableOk(m);
    ClaimsKnown(m);
    var c := m.claims[k];
    var d := m.deals[c.booking];
    ReportsCommit(m, c.booking, d, c.i, c.token, c.attempts, outcome, c.now);
    if Current(m, k) { AppliedDiffers(m, c.booking, d, c.i, c.token, c.attempts, outcome, c.now); }
    else {
      StaleIdle(d, c.i, c.token, c.attempts, outcome, c.now);
      assert With(m, c.booking, d) == m;
    }
  }

  lemma AppliedDiffers(
    m: Market, b: Id, d: Deal, i: nat, token: Time, attempts: nat, outcome: ProviderResult, now: Time)
    requires Row(m, b, d) && i < |d.ops| && d.ops[i].status == Waiting && d.ops[i].processingUntil == Some(token)
    ensures ApplyTx(d, i, token, attempts, outcome, now).After(d) != d
  {
    hide Row, Inv, CompleteTx, LegPaid, RetryDelay;
    RowOk(m, b, d);
    WithinDeposit(d, i);
    if outcome.Success? { ReportsCommit(m, b, d, i, token, attempts, outcome, now); }
  }

  lemma StaleIdle(d: Deal, i: nat, token: Time, attempts: nat, outcome: ProviderResult, now: Time)
    requires !(i < |d.ops| && d.ops[i].status == Waiting && d.ops[i].processingUntil == Some(token))
    ensures ApplyTx(d, i, token, attempts, outcome, now).After(d) == d
  {
  }

  /** A stored id stays stored: the same success is rolled back whenever it comes again, under whatever lease. */
  lemma RolledBackForEver(m: Market, id: string, cs: seq<Command>, k: nat)
    requires Reachable(m) && OperationIdTaken(m, id) && k < |Run(m, cs).claims|
    ensures Next(Run(m, cs), ReportOutcome(k, Success(id))) == Run(m, cs)
  {
    hide Reachable, Inv, MarketOk, Run;
    ReachableOk(m);
    RunEvolves(m, cs);
    var b, i :| b in m.deals && 0 <= i < |m.deals[b].ops| && m.deals[b].ops[i].providerId == Some(id);
    assert OpEvolves(m.deals[b].ops[i], Run(m, cs).deals[b].ops[i]);
    assert Run(m, cs).deals[b].ops[i].providerId == Some(id);
  }

  lemma ResolvedMeansSettled(d: Deal)
    requires Inv(d) && DepositIs(d, {Resolving, Resolved})
    ensures d.deposit.value.status == Resolved <==> Outstanding(d.ops, |d.ops|) == 0
  {
  }

  lemma {:induction false} CreditedAtLeast(ops: seq<Operation>, kind: OpKind, n: nat, i: nat)
    requires i < n <= |ops| && ops[i].kind == kind && ops[i].status == Succeeded
    ensures Credited(ops, kind, n) >= ops[i].amount
    decreases n
  {
    if i < n - 1 { CreditedAtLeast(ops, kind, n - 1, i); }
  }

  /** A resolved deposit was paid out as decided, part by part; without a dispute it went back whole. */
  lemma ResolvedAsDecided(m: Market, b: Id, d: Deal)
    requires Row(m, b, d) && DepositIs(d, {Resolved})
    ensures d.deposit.value.refunded == if d.dispute.Some? then d.dispute.value.refund else d.deposit.value.amount
    ensures d.deposit.value.released == if d.dispute.Some? then d.dispute.value.release else 0
  {
    hide Row, StatusOk, ActsOk, HistoryOk, TermsOk, LegPaid;
    RowOk(m, b, d);
    LegCredited(d, RefundOp);
    LegCredited(d, ReleaseOp);
    hide Inv;
    Conservation(m, b, d);
  }

  lemma LegCredited(d: Deal, kind: OpKind)
    requires Inv(d) && DepositIs(d, {Resolved}) && (kind == RefundOp || kind == ReleaseOp)
    ensures Credited(d.ops, kind, |d.ops|) >= LegAmount(d, kind)
  {
    hide StatusOk, ActsOk, HistoryOk, TermsOk, Chained;
    NothingOpenPaysLegs(d, kind);
    if LegAmount(d, kind) > 0 {
      var i :| 0 <= i < |d.ops| && d.ops[i].kind == kind && d.ops[i].amount == LegAmount(d, kind) &&
        d.ops[i].status == Succeeded;
      CreditedAtLeast(d.ops, kind, |d.ops|, i);
    }
  }

  // ---------------------------------------------------------------- progress

  /**
   * With the policy on, some operation waits for a worker, or an administrator may repeat a failed one under
   * any unused key. With it off, worker and retry refuse before they read anything.
   */
  ghost predicate CanProceed(d: Deal, fakePolicy: bool) {
    fakePolicy &&
    exists i | 0 <= i < |d.ops| ::
      d.ops[i].status == Waiting || (d.ops[i].status == Failed && Retryable(d, i) && !HasRetry(d.ops, i))
  }

  predicate SomeWaiting(d: Deal) {
    exists i | 0 <= i < |d.ops| :: d.ops[i].status == Waiting
  }

  /**
   * A settlement can proceed exactly when the policy is on and its dispute was decided or an operation is
   * still waiting: a declined refund without a decision can be neither repeated nor reported on again.
   */
  lemma ProceedsIff(m: Market, b: Id, d: Deal, fakePolicy: bool)
    requires Row(m, b, d) && DepositIs(d, {Resolving})
    ensures CanProceed(d, fakePolicy) <==> fakePolicy && (d.dispute.Some? || SomeWaiting(d))
  {
    hide Row, ActsOk, HistoryOk, TermsOk;
    RowOk(m, b, d);
    if d.dispute.Some? {
      var k := SomeOpen(d.ops, |d.ops|);
      assert d.ops[k].status == Waiting || (d.ops[k].status == Failed && Retryable(d, k) && !HasRetry(d.ops, k));
    }
  }

  /** The repetition itself: an open failed operation of a decided dispute is taken over under any unused key. */
  lemma RepeatAccepted(m: Market, b: Id, d: Deal, i: nat, command: string, now: Time)
    requires Row(m, b, d) && Retryable(d, i) && !HasRetry(d.ops, i) && command != ""
    ensures RetryTx(d, i, true, command, now).Commit? && RetryTx(d, i, true, command, now).reply == |d.ops|
  {
    hide Row, StatusOk, ActsOk, HistoryOk, TermsOk;
    RowOk(m, b, d);
    assert forall k | 0 <= k < |d.ops| :: d.ops[k].key == RetryOf(i, command) ==> d.ops[k].retryOf == Some(i);
  }

  /** No step on a stuck booking touches its settlement. */
  lemma StuckStep(d: Deal, s: Step)
    requires Inv(d) && DepositIs(d, {Resolving}) && d.dispute.None? && !SomeWaiting(d)
    ensures Exec(d, s).deposit == d.deposit && Exec(d, s).ops == d.ops && Exec(d, s).dispute == d.dispute
  {
    hide MoneyOk, HistoryOk, TermsOk, FindKey, HasRetry, RetryDelay, LegPaid;
  }

  /** Once stuck, stuck: nothing that follows moves the deposit or its operations again. */
  lemma {:induction false} StuckStays(m: Market, b: Id, d: Deal, cs: seq<Command>)
    requires Row(m, b, d) && DepositIs(d, {Resolving}) && !CanProceed(d, true)
    ensures b in Run(m, cs).deals
    ensures Run(m, cs).deals[b].deposit == d.deposit && Run(m, cs).deals[b].ops == d.ops
    ensures !CanProceed(Run(m, cs).deals[b], true)
    decreases |cs|
  {
    hide Reachable, Inv, Exec, Next, CanProceed, SomeWaiting;
    if cs != [] {
      var next := Next(m, cs[0]);
      var s := StepTaken(m, cs[0], b);
      RowOk(m, b, d);
      ProceedsIff(m, b, d, true);
      if s.Some? { StuckStep(d, s.value); }
      ReachableNext(m, cs[0]);
      SameWaiting(d, next.deals[b]);
      ProceedsIff(next, b, next.deals[b], true);
      StuckStays(next, b, next.deals[b], cs[1..]);
    }
  }

  lemma SameWaiting(d: Deal, next: Deal)
    requires next.ops == d.ops
    ensures SomeWaiting(next) == SomeWaiting(d)
  {
  }

  // ---------------------------------------------------------------- leases

  /**
   * Tokens of one operation strictly increase in the order the leases were granted, whatever clocks the workers
   * have.
   */
  lemma TokensIncrease(m: Market, j: nat, k: nat)
    requires Reachable(m) && j < k < |m.claims| && SameOp(m.claims[j], m.claims[k])
    ensures m.claims[j].token < m.claims[k].token
  {
    hide Reachable, Inv;
    ReachableOk(m);
  }

  /** A worker whose lease was overtaken changes nothing, whatever it reports. */
  lemma StaleReportIsIdle(m: Market, j: nat, k: nat, outcome: ProviderResult)
    requires Reachable(m) && j < k < |m.claims| && SameOp(m.claims[j], m.claims[k])
    ensures Next(m, ReportOutcome(j, outcome)) == m
  {
    hide Reachable, Inv, DealsOk, RequestsUnique, RequestsClear, NoDoubleBooking, Capped;
    ReachableOk(m);
    Overtaken(m, j, k);
    var c := m.claims[j];
    assert With(m, c.booking, m.deals[c.booking]) == m;
  }

  lemma Overtaken(m: Market, j: nat, k: nat)
    requires LeasesFenced(m) && j < k < |m.claims| && SameOp(m.claims[j], m.claims[k])
    ensures var c := m.claims[j]; c.booking in m.deals && c.i < |m.deals[c.booking].ops|
    ensures var c := m.claims[j];
            m.deals[c.booking].ops[c.i].status != Waiting ||
                m.deals[c.booking].ops[c.i].processingUntil != Some(c.token)
  {
  }

  /** Once an operation is decided, no later command of any run changes its outcome. */
  lemma DecidedOnce(m: Market, b: Id, d: Deal, i: nat, cs: seq<Command>)
    requires Row(m, b, d) && i < |d.ops| && d.ops[i].status != Waiting
    ensures b in Run(m, cs).deals && i < |Run(m, cs).deals[b].ops|
    ensures Run(m, cs).deals[b].ops[i].status == d.ops[i].status && Run(m, cs).deals[b].ops[i].amount == d.ops[i].amount
  {
    hide Reachable, Inv, MarketOk;
    ReachableOk(m);
    RunEvolves(m, cs);
  }
}
