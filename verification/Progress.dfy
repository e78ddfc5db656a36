/** Every settlement that can proceed can be brought to its end, and no other one can. */
module Progress {
  import opened Domain
  import opened Deals
  import opened Effects
  import opened Journal
  import opened DealInvariant
  import opened DealSteps
  import opened Evolution
  import opened Market
  import opened MarketInvariant
  import opened MarketRuns
  import opened Provider
  import opened Settlement
  import opened Worker

  /** What is left to settle. */
  ghost function Left(d: Deal): nat {
    Outstanding(d.ops, |d.ops|)
  }

  lemma ReachableRun(m: Market, cs: seq<Command>)
    requires Reachable(m)
    ensures Reachable(Run(m, cs))
    decreases |cs|
  {
    hide Reachable, Next;
    if cs != [] {
      ReachableNext(m, cs[0]);
      ReachableRun(Next(m, cs[0]), cs[1..]);
    }
  }

  lemma OneCommand(m: Market, c: Command)
    ensures Run(m, [c]) == Next(m, c)
  {
    hide Next;
    assert [c][1..] == [];
    RunNothing(Next(m, c));
  }

  lemma TwoCommands(m: Market, a: Command, c: Command)
    ensures Run(m, [a, c]) == Next(Next(m, a), c)
  {
    hide Next;
    RunAppend(m, [], a);
    RunAppend(m, [a], c);
    assert [] + [a] == [a] && [a] + [c] == [a, c];
  }

  /** A moment at which the operation is due and free. */
  function DueAt(op: Operation): Time {
    if op.processingUntil.Some? && op.processingUntil.value > op.nextAttemptAt then op.processingUntil.value
    else op.nextAttemptAt
  }

  /** What a worker may be answered: the provider's own id, unless some row has it already. */
  lemma AnswerFor(m: Market, b: Id, i: nat, keyText: KeyText, digest: string -> string) returns (id: string)
    requires b in m.deals && i < |m.deals[b].ops|
    ensures !OperationIdTaken(m, id)
    ensures Reachable(m) && m.deals[b].ops[i].status == Waiting && FromProvider(m, keyText, digest) &&
            Separates(keyText) && Injective(digest) ==>
              Success(id) == Fresh(RequestOf(b, m.deals[b].ops[i], keyText), digest)
  {
    hide Reachable, FromProvider, Separates, Injective, OperationIdTaken;
    id := Fresh(RequestOf(b, m.deals[b].ops[i], keyText), digest).providerId;
    if OperationIdTaken(m, id) {
      if Reachable(m) && m.deals[b].ops[i].status == Waiting && FromProvider(m, keyText, digest) &&
         Separates(keyText) && Injective(digest)
      {
        WaitingIdNew(m, b, i, id, keyText, digest);
      }
      id := FreshId(m);
    }
  }

  /** The runs below are honest ones when the state they start from is. */
  ghost predicate StaysHonest(m: Market, cs: seq<Command>, keyText: KeyText, digest: string -> string) {
    FromProvider(m, keyText, digest) && Separates(keyText) && Injective(digest) ==>
      HonestRun(m, cs, keyText, digest) && FromProvider(Run(m, cs), keyText, digest)
  }

  lemma HonestJoin(m: Market, cs: seq<Command>, more: seq<Command>, keyText: KeyText, digest: string -> string)
    requires StaysHonest(m, cs, keyText, digest) && StaysHonest(Run(m, cs), more, keyText, digest)
    ensures StaysHonest(m, cs + more, keyText, digest)
  {
    hide FromProvider, Run, HonestRun, Separates, Injective;
    RunConcat(m, cs, more);
    if HonestRun(m, cs, keyText, digest) && HonestRun(Run(m, cs), more, keyText, digest) {
      HonestConcat(m, cs, more, keyText, digest);
    }
  }

  lemma {:induction false} HonestConcat(
    m: Market, cs: seq<Command>, more: seq<Command>, keyText: KeyText, digest: string -> string)
    requires HonestRun(m, cs, keyText, digest) && HonestRun(Run(m, cs), more, keyText, digest)
    ensures HonestRun(m, cs + more, keyText, digest)
    decreases |cs|
  {
    hide Honest, Next;
    if cs == [] {
      assert cs + more == more;
    } else {
      assert (cs + more)[1..] == cs[1..] + more;
      HonestConcat(Next(m, cs[0]), cs[1..], more, keyText, digest);
    }
  }

  lemma OneHonest(m: Market, c: Command, keyText: KeyText, digest: string -> string)
    requires Reachable(m) && (FromProvider(m, keyText, digest) && Separates(keyText) && Injective(digest) ==>
               Honest(m, c, keyText, digest))
    ensures StaysHonest(m, [c], keyText, digest)
  {
    hide Reachable, FromProvider, Honest, Next, Separates, Injective;
    OneCommand(m, c);
    assert [c][1..] == [];
    assert HonestRun(Next(m, c), [], keyText, digest);
    if FromProvider(m, keyText, digest) && Separates(keyText) && Injective(digest) {
      HonestKeeps(m, c, keyText, digest);
    }
  }

  /** A claim and a success settle one waiting operation. */
  lemma SettleOne(m: Market, b: Id, d: Deal, i: nat, keyText: KeyText, digest: string -> string)
    returns (cs: seq<Command>)
    requires Row(m, b, d) && i < |d.ops| && d.ops[i].status == Waiting
    ensures StaysHonest(m, cs, keyText, digest)
    ensures Reachable(Run(m, cs)) && b in Run(m, cs).deals
    ensures var next := Run(m, cs).deals[b];
            DepositIs(next, {Resolving, Resolved}) && Left(next) < Left(d) && next.dispute == d.dispute
  {
    hide Reachable, Inv, Exec, Next, FromProvider, Separates, Injective, Fresh, StaysHonest;
    var t := DueAt(d.ops[i]);
    var claim := TakeLease(b, i, t);
    ClaimTaken(m, b, d, i);
    var id := AnswerFor(Next(m, claim), b, i, keyText, digest);
    var report := ReportOutcome(|m.claims|, Success(id));
    cs := [claim, report];
    RowOk(m, b, d);
    TwoCommands(m, claim, report);
    ReachableNext(m, claim);
    ReachableNext(Next(m, claim), report);
    var leased := ClaimTx(d, i, t).deal;
    OneHonest(m, claim, keyText, digest);
    OneHonest(Next(m, claim), report, keyText, digest);
    OneCommand(m, claim);
    HonestJoin(m, [claim], [report], keyText, digest);
    assert [claim] + [report] == cs;
    ClaimKeeps(d, i, t);
    SuccessKeeps(leased, i, t + LEASE_MS, d.ops[i].attempts + 1, id, t);
    ReportTaken(Next(m, claim), |m.claims|, b, leased, i, t, d.ops[i].attempts + 1, id);
    LeasedLess(d, leased, i, id);
  }

  /** There is always a provider id no operation has. */
  lemma FreshId(m: Market) returns (id: string)
    ensures !OperationIdTaken(m, id)
  {
    var n := Longest(m, m.deals.Keys);
    id := seq(n + 1, _ => 'x');
    assert |id| == n + 1;
  }

  lemma {:induction false} Longest(m: Market, bs: set<Id>) returns (n: nat)
    requires bs <= m.deals.Keys
    ensures forall b, i | b in bs && 0 <= i < |m.deals[b].ops| && m.deals[b].ops[i].providerId.Some? ::
              |m.deals[b].ops[i].providerId.value| <= n
    decreases bs
  {
    n := 0;
    if bs != {} {
      var b :| b in bs;
      n := Longest(m, bs - {b});
      var ops := m.deals[b].ops;
      for k := 0 to |ops|
        invariant forall c, i | c in bs - {b} && 0 <= i < |m.deals[c].ops| && m.deals[c].ops[i].providerId.Some? ::
                    |m.deals[c].ops[i].providerId.value| <= n
        invariant forall i | 0 <= i < k && ops[i].providerId.Some? :: |ops[i].providerId.value| <= n
      {
        if ops[k].providerId.Some? && |ops[k].providerId.value| > n { n := |ops[k].providerId.value|; }
      }
    }
  }

  lemma ClaimTaken(m: Market, b: Id, d: Deal, i: nat)
    requires b in m.deals && d == m.deals[b] && i < |d.ops| && d.ops[i].status == Waiting
    ensures var t := DueAt(d.ops[i]);
            var next := Next(m, TakeLease(b, i, t));
            b in next.deals && next.deals[b] == ClaimTx(d, i, t).deal &&
            next.claims == m.claims + [Claim(b, i, t + LEASE_MS, d.ops[i].attempts + 1, t)]
    ensures var t := DueAt(d.ops[i]);
            ClaimTx(d, i, t).deal ==
              d.(ops := d.ops[i := d.ops[i].(processingUntil := Some(t + LEASE_MS), attempts := d.ops[i].attempts + 1)])
  {
  }

  lemma ReportTaken(m: Market, k: nat, b: Id, d: Deal, i: nat, t: Time, attempts: nat, id: string)
    requires b in m.deals && d == m.deals[b] && !OperationIdTaken(m, id)
    requires k < |m.claims| && m.claims[k] == Claim(b, i, t + LEASE_MS, attempts, t)
    ensures b in Next(m, ReportOutcome(k, Success(id))).deals
    ensures Next(m, ReportOutcome(k, Success(id))).deals[b] ==
              ApplyTx(d, i, t + LEASE_MS, attempts, Success(id), t).After(d)
  {
    hide ApplyTx;
  }

  lemma LeasedLess(d: Deal, leased: Deal, i: nat, id: string)
    requires Inv(d) && Inv(leased) && i < |d.ops| && d.ops[i].status == Waiting && leased.deposit.Some?
    requires exists op :: leased == d.(ops := d.ops[i := op]) &&
               op.kind == d.ops[i].kind && op.amount == d.ops[i].amount && op.status == Waiting &&
               op.key == d.ops[i].key && op.retryOf == d.ops[i].retryOf && op.providerId == d.ops[i].providerId
    ensures var next := PaidOut(leased, i, id);
            DepositIs(next, {Resolving, Resolved}) && Left(next) < Left(d) && next.dispute == d.dispute
  {
    hide Inv, Chained, Legs;
    WithinDeposit(d, i);
    SameMoneyKeeps(d.ops, leased.ops);
    SuccessMoves(leased.ops, i, Done(leased.ops[i], id));
  }

  /** An open operation waits, or is repeated by a retry that waits; the money left is the same. */
  lemma MakeWaiting(m: Market, b: Id, d: Deal, keyText: KeyText, digest: string -> string)
    returns (cs: seq<Command>, i: nat)
    requires Row(m, b, d) && DepositIs(d, {Resolving}) && CanProceed(d, true)
    ensures StaysHonest(m, cs, keyText, digest)
    ensures Reachable(Run(m, cs)) && b in Run(m, cs).deals
    ensures var next := Run(m, cs).deals[b];
            i < |next.ops| && next.ops[i].status == Waiting && Left(next) == Left(d) && next.dispute == d.dispute
  {
    hide Reachable, Inv, Next, Retryable, HasRetry, Outstanding, RetryTx, FromProvider, Separates, Injective;
    i :| 0 <= i < |d.ops| &&
      (d.ops[i].status == Waiting || (d.ops[i].status == Failed && Retryable(d, i) && !HasRetry(d.ops, i)));
    if d.ops[i].status == Waiting {
      cs := [];
      RunNothing(m);
    } else {
      var repeat := On(b, Repeat(i, true, "again", 0));
      cs := [repeat];
      ReachableNext(m, repeat);
      OneHonest(m, repeat, keyText, digest);
      RepeatAccepted(m, b, d, i, "again", 0);
      RepeatTaken(m, b, d, i);
      RowOk(m, b, d);
      RepeatLeft(d, i);
      RunNothing(m);
      RunAppend(m, [], repeat);
      i := |d.ops|;
    }
  }

  lemma RepeatLeft(d: Deal, i: nat)
    requires Inv(d) && i < |d.ops| && d.ops[i].status == Failed && !HasRetry(d.ops, i)
    ensures var op := NewOperation(d.ops[i].kind, d.ops[i].amount, RetryOf(i, "again"), Some(i), 0);
            Left(d.(ops := d.ops + [op])) == Left(d)
  {
    hide Inv, Chained, HasRetry, Outstanding;
    OpsChained(d);
    RetryTakesOver(d.ops, i, NewOperation(d.ops[i].kind, d.ops[i].amount, RetryOf(i, "again"), Some(i), 0));
  }

  lemma RepeatTaken(m: Market, b: Id, d: Deal, i: nat)
    requires b in m.deals && d == m.deals[b] && i < |d.ops| && Retryable(d, i) && !HasRetry(d.ops, i)
    requires RetryTx(d, i, true, "again", 0).Commit? && RetryTx(d, i, true, "again", 0).reply == |d.ops|
    ensures var next := Next(m, On(b, Repeat(i, true, "again", 0)));
            b in next.deals &&
            next.deals[b] == d.(ops := d.ops +
                [NewOperation(d.ops[i].kind, d.ops[i].amount, RetryOf(i, "again"), Some(i), 0)])
  {
    hide HasRetry;
  }

  /**
   * Some run of retries, claims and successes ends the settlement. Where every stored id is the provider's, each
   * success of that run is the provider's own answer.
   */
  lemma {:induction false} Settle(m: Market, b: Id, d: Deal, keyText: KeyText, digest: string -> string)
    returns (cs: seq<Command>)
    requires Row(m, b, d) && DepositIs(d, {Resolving, Resolved}) && (DepositIs(d, {Resolving}) ==> CanProceed(d, true))
    ensures b in Run(m, cs).deals && DepositIs(Run(m, cs).deals[b], {Resolved})
    ensures StaysHonest(m, cs, keyText, digest)
    decreases Left(d)
  {
    hide Reachable, CanProceed, Outstanding, Run, StaysHonest;
    cs := [];
    assert Run(m, []) == m by { RunNothing(m); }
    NothingHonest(m, keyText, digest);
    if DepositIs(d, {Resolving}) {
      var first, i := MakeWaiting(m, b, d, keyText, digest);
      var waiting := Run(m, first);
      var second := SettleOne(waiting, b, waiting.deals[b], i, keyText, digest);
      var settled := Run(waiting, second);
      RunConcat(m, first, second);
      HonestJoin(m, first, second, keyText, digest);
      AmountKept(m, b, first + second);
      StillProceeds(m, b, d, settled, settled.deals[b]);
      var rest := Settle(settled, b, settled.deals[b], keyText, digest);
      cs := first + second + rest;
      RunConcat(m, first + second, rest);
      HonestJoin(m, first + second, rest, keyText, digest);
    }
  }

  lemma NothingHonest(m: Market, keyText: KeyText, digest: string -> string)
    ensures StaysHonest(m, [], keyText, digest)
  {
    RunNothing(m);
  }

  lemma AmountKept(m: Market, b: Id, cs: seq<Command>)
    requires Reachable(m) && b in m.deals && m.deals[b].deposit.Some?
    ensures b in Run(m, cs).deals && Run(m, cs).deals[b].deposit.Some?
    ensures Run(m, cs).deals[b].deposit.value.amount == m.deals[b].deposit.value.amount
  {
    hide Reachable, Inv, MarketOk, Run;
    ReachableOk(m);
    RunEvolves(m, cs);
  }

  lemma RunNothing(m: Market)
    ensures Run(m, []) == m
  {
  }

  /** With a decision something can always be repeated; without one the only operation was the last. */
  lemma StillProceeds(m: Market, b: Id, d: Deal, later: Market, next: Deal)
    requires Row(m, b, d) && Row(later, b, next) && DepositIs(d, {Resolving}) && CanProceed(d, true)
    requires DepositIs(next, {Resolving, Resolved}) && Left(next) < Left(d) && next.dispute == d.dispute
    requires next.deposit.value.amount == d.deposit.value.amount
    ensures DepositIs(next, {Resolving}) ==> CanProceed(next, true)
  {
    hide Row, CanProceed;
    if DepositIs(next, {Resolving}) {
      ProceedsIff(m, b, d, true);
      ProceedsIff(later, b, next, true);
      if d.dispute.None? { RowOk(m, b, d); RowOk(later, b, next); OneLeg(d); OneLeg(next); }
    }
  }

  /** Without a decision there is one refund of the whole deposit. */
  lemma OneLeg(d: Deal)
    requires Inv(d) && DepositIs(d, {Resolving}) && d.dispute.None?
    ensures Left(d) == d.deposit.value.amount
  {
    hide StatusOk, ActsOk, HistoryOk, TermsOk;
    assert Outstanding(d.ops, 1) == 0;
  }

  /** A settlement under way can end RESOLVED exactly when it can proceed. */
  lemma SettlesIff(m: Market, b: Id, d: Deal)
    requires Row(m, b, d) && DepositIs(d, {Resolving})
    ensures CanProceed(d, true) <==> exists cs :: b in Run(m, cs).deals && DepositIs(Run(m, cs).deals[b], {Resolved})
  {
    hide Reachable, CanProceed, Run, StaysHonest;
    if CanProceed(d, true) {
      var cs := Settle(m, b, d, (_, _) => "", _ => "");
      assert b in Run(m, cs).deals && DepositIs(Run(m, cs).deals[b], {Resolved});
    } else {
      forall cs ensures !(b in Run(m, cs).deals && DepositIs(Run(m, cs).deals[b], {Resolved})) {
        StuckStays(m, b, d, cs);
      }
    }
  }

  /** The same with the provider's own answers only. */
  lemma SettlesHonestlyIff(m: Market, b: Id, d: Deal, keyText: KeyText, digest: string -> string)
    requires Row(m, b, d) && DepositIs(d, {Resolving})
    requires FromProvider(m, keyText, digest) && Separates(keyText) && Injective(digest)
    ensures CanProceed(d, true) <==>
              exists cs :: HonestRun(m, cs, keyText, digest) &&
                b in Run(m, cs).deals && DepositIs(Run(m, cs).deals[b], {Resolved})
  {
    hide Reachable, CanProceed, Run, HonestRun, FromProvider, Separates, Injective;
    if CanProceed(d, true) {
      var cs := Settle(m, b, d, keyText, digest);
      assert HonestRun(m, cs, keyText, digest) && b in Run(m, cs).deals;
    } else {
      forall cs ensures !(b in Run(m, cs).deals && DepositIs(Run(m, cs).deals[b], {Resolved})) {
        StuckStays(m, b, d, cs);
      }
    }
  }

  // ---------------------------------------------------------------- from every deposit that was ever held

  /** One command on the booking, which takes no answer of the provider. */
  lemma OneStep(m: Market, b: Id, s: Step, keyText: KeyText, digest: string -> string)
    requires Reachable(m) && b in m.deals && !s.Pay?
    ensures var next := Run(m, [On(b, s)]);
            Reachable(next) && b in next.deals && next.deals[b] == Now(m, b, s)
    ensures StaysHonest(m, [On(b, s)], keyText, digest)
  {
    hide Reachable, Exec, StaysHonest, FromProvider;
    OneCommand(m, On(b, s));
    ReachableNext(m, On(b, s));
    OnlyItsRow(m, b, s);
    OneHonest(m, On(b, s), keyText, digest);
  }

  /** A run that ends at once in a settlement that can proceed, and then settles. */
  lemma ThenSettle(m: Market, b: Id, s: Step, keyText: KeyText, digest: string -> string) returns (cs: seq<Command>)
    requires Reachable(m) && b in m.deals && !s.Pay?
    requires DepositIs(Now(m, b, s), {Resolving}) && SomeWaiting(Now(m, b, s))
    ensures b in Run(m, cs).deals && DepositIs(Run(m, cs).deals[b], {Resolved}) && Reachable(Run(m, cs))
    ensures StaysHonest(m, cs, keyText, digest)
    ensures exists more :: cs == [On(b, s)] + more
  {
    hide Reachable, Run, StaysHonest, Now, Row;
    OneStep(m, b, s, keyText, digest);
    var next := Run(m, [On(b, s)]);
    assert CanProceed(next.deals[b], true);
    assert Row(next, b, next.deals[b]) by { RowThere(next, b); }
    var more := Settle(next, b, next.deals[b], keyText, digest);
    cs := [On(b, s)] + more;
    RunConcat(m, [On(b, s)], more);
    ReachableRun(next, more);
    HonestJoin(m, [On(b, s)], more, keyText, digest);
  }

  lemma RowThere(m: Market, b: Id)
    requires Reachable(m) && b in m.deals
    ensures Row(m, b, m.deals[b])
  {
  }

  /** Every disputed deposit can be paid out in any two parts an administrator decides on. */
  lemma DisputeSettles(
    m: Market, b: Id, d: Deal, admin: Id, decision: string, refund: nat, release: nat, command: string, now: Time,
    keyText: KeyText, digest: string -> string)
    returns (cs: seq<Command>)
    requires Row(m, b, d) && DepositIs(d, {Disputed}) && refund + release == d.deposit.value.amount && command != ""
    ensures b in Run(m, cs).deals && DepositIs(Run(m, cs).deals[b], {Resolved})
    ensures Run(m, cs).deals[b].deposit.value.refunded == refund
    ensures Run(m, cs).deals[b].deposit.value.released == release
    ensures StaysHonest(m, cs, keyText, digest)
  {
    hide Reachable, Run, StaysHonest, Now, Row, Inv;
    var s := Decide(admin, true, decision, refund, release, command, now);
    DecideIff(m, b, d, admin, true, decision, refund, release, command, now);
    RowIn(m, b, d);
    RowReached(m, b, d);
    DecidedWaits(m, b, d, admin, decision, refund, release, command, now);
    cs := ThenSettle(m, b, s, keyText, digest);
    DecisionStays(m, b, s, cs);
    RowThere(Run(m, cs), b);
    ResolvedAsDecided(Run(m, cs), b, Run(m, cs).deals[b]);
  }

  lemma RowReached(m: Market, b: Id, d: Deal)
    requires Row(m, b, d)
    ensures Reachable(m)
  {
  }

  lemma DecidedWaits(
    m: Market, b: Id, d: Deal, admin: Id, decision: string, refund: nat, release: nat, command: string, now: Time)
    requires Row(m, b, d) && DepositIs(d, {Disputed}) && refund + release == d.deposit.value.amount && command != ""
    ensures b in m.deals && SomeWaiting(Now(m, b, Decide(admin, true, decision, refund, release, command, now)))
  {
    hide Now;
    DecideIff(m, b, d, admin, true, decision, refund, release, command, now);
    var ops := Now(m, b, Decide(admin, true, decision, refund, release, command, now)).ops;
    assert refund > 0 || release > 0 by { RowOk(m, b, d); }
    assert ops[|d.ops|].status == Waiting;
  }

  /** What was decided stays over the rest of the run. */
  lemma DecisionStays(m: Market, b: Id, s: Step, cs: seq<Command>)
    requires Reachable(m) && b in m.deals && (exists more :: cs == [On(b, s)] + more)
    requires Now(m, b, s).dispute.Some? && Now(m, b, s).dispute.value.status == Decided
    ensures b in Run(m, cs).deals && Run(m, cs).deals[b].dispute == Now(m, b, s).dispute
  {
    hide Reachable, Inv, MarketOk, Exec, Now;
    var more :| cs == [On(b, s)] + more;
    RunConcat(m, [On(b, s)], more);
    OneCommand(m, On(b, s));
    ReachableNext(m, On(b, s));
    OnlyItsRow(m, b, s);
    hide Run, Next;
    ReachableOk(Next(m, On(b, s)));
    RunEvolves(Next(m, On(b, s)), more);
  }

  lemma Joined(m: Market, b: Id, s: Step, more: seq<Command>, keyText: KeyText, digest: string -> string)
    requires Reachable(m) && b in m.deals && !s.Pay?
    requires StaysHonest(Run(m, [On(b, s)]), more, keyText, digest)
    ensures Run(m, [On(b, s)] + more) == Run(Run(m, [On(b, s)]), more)
    ensures StaysHonest(m, [On(b, s)] + more, keyText, digest)
  {
    hide Reachable, StaysHonest, Run;
    OneStep(m, b, s, keyText, digest);
    RunConcat(m, [On(b, s)], more);
    HonestJoin(m, [On(b, s)], more, keyText, digest);
  }

  /** A held deposit of a confirmed booking goes back when the borrower cancels. */
  lemma ConfirmedEnds(m: Market, b: Id, d: Deal, keyText: KeyText, digest: string -> string)
    returns (cs: seq<Command>)
    requires Row(m, b, d) && DepositIs(d, {Held}) && d.status == Confirmed
    ensures b in Run(m, cs).deals && DepositIs(Run(m, cs).deals[b], {Resolved})
    ensures StaysHonest(m, cs, keyText, digest)
  {
    hide Reachable, Run, StaysHonest, Now;
    RowReached(m, b, d);
    CancelIff(m, b, d, d.borrower, true, 0);
    WithTerms(m, b, d);
    var s := CancelBy(d.borrower, true, 0);
    assert Now(m, b, s).ops[|d.ops|].status == Waiting;
    cs := ThenSettle(m, b, s, keyText, digest);
  }

  lemma WithTerms(m: Market, b: Id, d: Deal)
    requires Row(m, b, d) && d.deposit.Some?
    ensures d.terms.fake && d.terms.windowMs.Some?
  {
    hide Row, StatusOk, ActsOk, HistoryOk, Settling;
    RowOk(m, b, d);
  }

  /** An undisputed return is refunded when its window has closed. */
  lemma ReturnedEnds(m: Market, b: Id, d: Deal, keyText: KeyText, digest: string -> string)
    returns (cs: seq<Command>)
    requires Row(m, b, d) && DepositIs(d, {Held}) && d.status == Returned
    ensures b in Run(m, cs).deals && DepositIs(Run(m, cs).deals[b], {Resolved})
    ensures StaysHonest(m, cs, keyText, digest)
  {
    hide Reachable, Run, StaysHonest, Now;
    RowReached(m, b, d);
    CloseWindowIff(m, b, d, 0);
    Undisputed(m, b, d);
    var now := d.deposit.value.windowEndsAt.value;
    CloseWindowIff(m, b, d, now);
    assert Now(m, b, CloseWindow(now)).ops[|d.ops|].status == Waiting;
    cs := ThenSettle(m, b, CloseWindow(now), keyText, digest);
  }

  lemma Undisputed(m: Market, b: Id, d: Deal)
    requires Row(m, b, d) && DepositIs(d, {Held})
    ensures d.dispute.None? && (d.status == Confirmed || d.status == Active || d.status == Returned)
  {
    hide Row, MoneyOk, ActsOk, HistoryOk, TermsOk;
    RowOk(m, b, d);
  }

  /** A booking under way is returned once its lender signs the borrower's act. */
  lemma SignedEnds(m: Market, b: Id, d: Deal, keyText: KeyText, digest: string -> string)
    returns (cs: seq<Command>)
    requires Row(m, b, d) && DepositIs(d, {Held}) && d.status == Active && Return in d.acts
    ensures b in Run(m, cs).deals && DepositIs(Run(m, cs).deals[b], {Resolved})
    ensures StaysHonest(m, cs, keyText, digest)
  {
    hide Reachable, Run, StaysHonest, Now, Row;
    RowReached(m, b, d);
    RowIn(m, b, d);
    Unsigned(m, b, d);
    SignIff(m, b, d, d.lender, Return, 0);
    var s := SignAct(d.lender, Return, 0);
    OneStep(m, b, s, keyText, digest);
    var next := Run(m, [On(b, s)]);
    RowThere(next, b);
    var more := ReturnedEnds(next, b, next.deals[b], keyText, digest);
    Joined(m, b, s, more, keyText, digest);
    cs := [On(b, s)] + more;
  }

  lemma Unsigned(m: Market, b: Id, d: Deal)
    requires Row(m, b, d) && d.status == Active
    ensures Return in d.acts ==> d.acts[Return].confirmedBy.None?
  {
    hide Row, MoneyOk, StatusOk, HistoryOk, TermsOk;
    RowOk(m, b, d);
  }

  lemma ActiveEnds(m: Market, b: Id, d: Deal, keyText: KeyText, digest: string -> string)
    returns (cs: seq<Command>)
    requires Row(m, b, d) && DepositIs(d, {Held}) && d.status == Active
    ensures b in Run(m, cs).deals && DepositIs(Run(m, cs).deals[b], {Resolved})
    ensures StaysHonest(m, cs, keyText, digest)
  {
    hide Reachable, Run, StaysHonest, Now, Row;
    if Return in d.acts {
      cs := SignedEnds(m, b, d, keyText, digest);
    } else {
      RowReached(m, b, d);
      RowIn(m, b, d);
      var s := MakeAct(d.borrower, Return, 0, false, true, true);
      MakeActIff(m, b, d, d.borrower, Return, 0, false, true, true);
      OneStep(m, b, s, keyText, digest);
      var next := Run(m, [On(b, s)]);
      RowThere(next, b);
      var more := SignedEnds(next, b, next.deals[b], keyText, digest);
      Joined(m, b, s, more, keyText, digest);
      cs := [On(b, s)] + more;
    }
  }

  /**
   * From every reachable state some run pays a deposit out in full that was ever held, unless its settlement
   * is stuck.
   */
  lemma EveryDepositEnds(m: Market, b: Id, d: Deal, keyText: KeyText, digest: string -> string)
    returns (cs: seq<Command>)
    requires Row(m, b, d) && DepositIs(d, {Held, Disputed, Resolving, Resolved})
    requires DepositIs(d, {Resolving}) ==> CanProceed(d, true)
    ensures b in Run(m, cs).deals && DepositIs(Run(m, cs).deals[b], {Resolved})
    ensures StaysHonest(m, cs, keyText, digest)
  {
    hide Row, Run, StaysHonest, CanProceed;
    if DepositIs(d, {Held}) {
      Undisputed(m, b, d);
      if d.status == Confirmed { cs := ConfirmedEnds(m, b, d, keyText, digest); }
      else if d.status == Active { cs := ActiveEnds(m, b, d, keyText, digest); }
      else { cs := ReturnedEnds(m, b, d, keyText, digest); }
    } else if DepositIs(d, {Disputed}) {
      cs := DisputeSettles(m, b, d, 0, "", d.deposit.value.amount, 0, "decided", 0, keyText, digest);
    } else {
      cs := Settle(m, b, d, keyText, digest);
    }
  }
}
