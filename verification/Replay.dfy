/**
 * Repeating a call that succeeded, with the same actor, key and payload, changes nothing, whatever
 * other commands ran in between.
 */
module Replay {
  import opened Domain
  import opened Deals
  import opened DealInvariant
  import opened Evolution
  import opened Market
  import opened MarketInvariant
  import opened MarketRuns
  import opened Settlement
  import opened Provider
  import opened Text
  import Price

  /** The first operation under a key stays the first as operations are only appended. */
  lemma {:induction false} FindKeyStable(ops: seq<Operation>, next: seq<Operation>, key: OpKey)
    requires OpsEvolve(ops, next) && FindKey(ops, key).Some?
    ensures FindKey(next, key) == FindKey(ops, key)
    decreases |next|, |ops|
  {
    if |next| > |ops| {
      var shorter := next[..|next| - 1];
      assert forall i | 0 <= i < |ops| :: shorter[i] == next[i];
      FindKeyStable(ops, shorter, key);
    } else {
      var last := |ops| - 1;
      var a, b := ops[..last], next[..last];
      assert forall i | 0 <= i < last :: a[i] == ops[i] && b[i] == next[i];
      assert OpEvolves(ops[last], next[last]);
      if FindKey(a, key).Some? { FindKeyStable(a, b, key); }
      else {
        assert forall i | 0 <= i < last :: b[i].key == a[i].key;
      }
    }
  }

  lemma FindAppended(ops: seq<Operation>, op: Operation)
    requires FindKey(ops, op.key).None?
    ensures FindKey(ops + [op], op.key) == Some(|ops|)
  {
    assert (ops + [op])[..|ops|] == ops;
  }

  // ---------------------------------------------------------------- per transaction

  lemma CancelReplay(d: Deal, next: Deal, actor: Id, fakePolicy: bool, now: Time, fakePolicy': bool, later: Time)
    requires CancelTx(d, actor, fakePolicy, now).Commit? && Evolves(CancelTx(d, actor, fakePolicy, now).deal, next)
    ensures CancelTx(next, actor, fakePolicy', later) == Commit(next, ())
  {
    hide DepositEvolves, OpsEvolve, DisputeEvolves, ActsEvolve;
  }

  lemma SignReplay(d: Deal, next: Deal, actor: Id, stage: Stage, now: Time, later: Time)
    requires ConfirmActTx(d, actor, stage, now).Commit? && Evolves(ConfirmActTx(d, actor, stage, now).deal, next)
    ensures ConfirmActTx(next, actor, stage, later) == Commit(next, 0)
  {
    hide DepositEvolves, OpsEvolve, DisputeEvolves;
    assert stage in ConfirmActTx(d, actor, stage, now).deal.acts;
  }

  lemma CreateActReplay(d: Deal, next: Deal, actor: Id, stage: Stage, intent: Id, readiness: bool, verified: bool,
      usable: bool, verified': bool, usable': bool)
    requires CreateActTx(d, actor, stage, intent, readiness, verified, usable).Commit?
    requires Evolves(CreateActTx(d, actor, stage, intent, readiness, verified, usable).deal, next)
    ensures CreateActTx(next, actor, stage, intent, readiness, verified', usable') == Commit(next, ())
  {
    hide DepositEvolves, OpsEvolve, DisputeEvolves;
    assert stage in CreateActTx(d, actor, stage, intent, readiness, verified, usable).deal.acts;
  }

  /** After a paid checkout, any further checkout leaves the rows alone, whatever the provider answers. */
  lemma CheckoutReplay(
    d: Deal, next: Deal, borrower: Id, fakePolicy: bool, key: string, checkout: ProviderCall, hold: ProviderCall,
    now: Time, fakePolicy': bool, checkout': ProviderCall, hold': ProviderCall, later: Time)
    requires var tx := CheckoutTx(d, borrower, fakePolicy, key, checkout, hold, now);
             tx.Commit? && tx.reply.Success? && Evolves(tx.deal, next)
    ensures var tx := CheckoutTx(next, borrower, fakePolicy', key, checkout', hold', later);
            tx.After(next) == next &&
            (tx.Commit? && checkout'.result.Success? ==>
                tx.reply == CheckoutTx(d, borrower, fakePolicy, key, checkout, hold, now).reply)
  {
    hide DepositEvolves, OpsEvolve, DisputeEvolves, ActsEvolve;
  }

  /** A checkout the provider did not charge writes nothing, and its answer is the provider's. */
  lemma UnpaidReplay(
    d: Deal, borrower: Id, fakePolicy: bool, key: string, checkout: ProviderCall, hold: ProviderCall, now: Time)
    requires !(checkout.Answer? && checkout.result.Success?)
    ensures var tx := CheckoutTx(d, borrower, fakePolicy, key, checkout, hold, now);
            tx.After(d) == d && (tx.Commit? ==> checkout == Answer(tx.reply))
  {
  }

  /** A repeated decision finds its own operations again and returns; nothing is scheduled twice. */
  lemma ResolveReplay(d: Deal, next: Deal, admin: Id, decision: string, refund: int, release: int, command: string,
      now: Time, later: Time)
    requires Inv(d)
    requires var tx := ResolveTx(d, admin, true, decision, refund, release, command, now);
             tx.Commit? &&
             Evolves(tx.deal, next)
    ensures ResolveTx(next, admin, true, decision, refund, release, command, later) == Commit(next, ())
  {
    var done := ResolveTx(d, admin, true, decision, refund, release, command, now).deal;
    LegsFound(d, done, admin, decision, refund, release, command, now);
    KeepLeg(done, next, RefundOp, refund, command);
    KeepLeg(done, next, ReleaseOp, release, command);
    hide Inv, HasLeg, OpsEvolve, ActsEvolve;
  }

  lemma KeepLeg(d: Deal, next: Deal, kind: OpKind, amount: nat, command: string)
    requires OpsEvolve(d.ops, next.ops) && HasLeg(d.ops, kind, amount, command)
    ensures HasLeg(next.ops, kind, amount, command)
  {
    if amount > 0 {
      FindKeyStable(d.ops, next.ops, Resolution(command, kind));
      assert OpEvolves(d.ops[FindKey(d.ops, Resolution(command, kind)).value],
        next.ops[FindKey(d.ops, Resolution(command, kind)).value]);
    }
  }

  lemma LegsFound(d: Deal, done: Deal, admin: Id, decision: string, refund: int, release: int, command: string,
      now: Time)
    requires Inv(d) && ResolveTx(d, admin, true, decision, refund, release, command, now) == Commit(done, ())
    ensures refund >= 0 && release >= 0
    ensures HasLeg(done.ops, RefundOp, refund, command) && HasLeg(done.ops, ReleaseOp, release, command)
    ensures done.deposit.Some? && done.dispute.Some? && done.deposit.value.amount == refund + release
    ensures var x := done.dispute.value;
            x.status == Decided && x.resolvedBy == Some(admin) && x.decision == decision && x.refund == refund &&
                x.release == release
  {
    hide Settling, ActsOk, HistoryOk, TermsOk, FindKey;
    if !DisputeDecidedBy(d.dispute) {
      var n := LegOperation(RefundOp, refund, command, now);
      FirstLeg(d.ops, n, refund, command, RefundOp, now);
      FirstLeg(d.ops + n, LegOperation(ReleaseOp, release, command, now), release, command, ReleaseOp, now);
      StillLeg(d.ops + n, LegOperation(ReleaseOp, release, command, now), refund, command, RefundOp);
      assert done.ops == d.ops + n + LegOperation(ReleaseOp, release, command, now);
    }
  }

  /** A new leg is found under its key. */
  lemma FirstLeg(ops: seq<Operation>, leg: seq<Operation>, amount: nat, command: string, kind: OpKind, now: Time)
    requires leg == LegOperation(kind, amount, command, now) &&
             forall i | 0 <= i < |ops| :: ops[i].key != Resolution(command, kind)
    ensures HasLeg(ops + leg, kind, amount, command)
  {
    if amount > 0 { FindAppended(ops, leg[0]); }
  }

  lemma StillLeg(ops: seq<Operation>, more: seq<Operation>, amount: nat, command: string, kind: OpKind)
    requires HasLeg(ops, kind, amount, command)
    ensures HasLeg(ops + more, kind, amount, command)
  {
    if amount > 0 {
      assert OpsEvolve(ops, ops + more);
      FindKeyStable(ops, ops + more, Resolution(command, kind));
    }
  }

  /** A repeated retry command returns the retry it created. */
  lemma RetryReplay(d: Deal, next: Deal, i: nat, command: string, now: Time, later: Time)
    requires Inv(d)
    requires RetryTx(d, i, true, command, now).Commit? && Evolves(RetryTx(d, i, true, command, now).deal, next)
    ensures RetryTx(next, i, true, command, later) == Commit(next, RetryTx(d, i, true, command, now).reply)
  {
    hide Inv, DepositEvolves, ActsEvolve, DisputeEvolves, Retryable;
    var tx := RetryTx(d, i, true, command, now);
    if FindKey(d.ops, RetryOf(i, command)).None? {
      FindAppended(d.ops, NewOperation(d.ops[i].kind, d.ops[i].amount, RetryOf(i, command), Some(i), now));
    }
    assert FindKey(tx.deal.ops, RetryOf(i, command)) == Some(tx.reply);
    FindKeyStable(tx.deal.ops, next.ops, RetryOf(i, command));
    assert OpEvolves(tx.deal.ops[i], next.ops[i]) && OpEvolves(tx.deal.ops[tx.reply], next.ops[tx.reply]);
  }

  // ---------------------------------------------------------------- in runs

  /** The rows of booking `b` after the command and after any run that follows it. */
  lemma Later(m: Market, b: Id, s: Step, cs: seq<Command>)
    requires Reachable(m) && b in m.deals && Single(s) && !RollsBack(m, b, s)
    ensures b in Run(Next(m, On(b, s)), cs).deals
    ensures Inv(m.deals[b]) && Evolves(Exec(m.deals[b], s), Run(Next(m, On(b, s)), cs).deals[b])
  {
    hide Reachable, Inv, MarketOk, Exec, Evolves;
    RowOk(m, b, m.deals[b]);
    ReachableOk(m);
    NextKeeps(m, On(b, s));
    RunEvolves(Next(m, On(b, s)), cs);
  }

  lemma Unchanged(m: Market, b: Id, s: Step)
    requires b in m.deals && Exec(m.deals[b], s) == m.deals[b]
    ensures Next(m, On(b, s)) == m
  {
    assert With(m, b, m.deals[b]) == m;
  }

  /** A cancel that went through, repeated after any run. */
  lemma CancelAgain(m: Market, b: Id, actor: Id, fakePolicy: bool, now: Time, cs: seq<Command>, fakePolicy': bool,
      later: Time)
    requires Reachable(m) && b in m.deals && CancelTx(m.deals[b], actor, fakePolicy, now).Commit?
    ensures var reached := Run(Next(m, On(b, CancelBy(actor, fakePolicy, now))), cs);
            Next(reached, On(b, CancelBy(actor, fakePolicy', later))) == reached
  {
    hide Reachable, Evolves, Next, Run, CancelTx;
    Later(m, b, CancelBy(actor, fakePolicy, now), cs);
    var reached := Run(Next(m, On(b, CancelBy(actor, fakePolicy, now))), cs);
    CancelReplay(m.deals[b], reached.deals[b], actor, fakePolicy, now, fakePolicy', later);
    Unchanged(reached, b, CancelBy(actor, fakePolicy', later));
  }

  /** An act confirmation that went through, repeated after any run. */
  lemma SignAgain(m: Market, b: Id, actor: Id, stage: Stage, now: Time, cs: seq<Command>, later: Time)
    requires Reachable(m) && b in m.deals && ConfirmActTx(m.deals[b], actor, stage, now).Commit?
    ensures var reached := Run(Next(m, On(b, SignAct(actor, stage, now))), cs);
            Next(reached, On(b, SignAct(actor, stage, later))) == reached
  {
    hide Reachable, Evolves, Next, Run, ConfirmActTx;
    Later(m, b, SignAct(actor, stage, now), cs);
    var reached := Run(Next(m, On(b, SignAct(actor, stage, now))), cs);
    SignReplay(m.deals[b], reached.deals[b], actor, stage, now, later);
    Unchanged(reached, b, SignAct(actor, stage, later));
  }

  /**
   * A checkout that returned, paid or not, repeated with the same key and payload after any run of
   * commands and any requests to the provider: nothing changes, and when it returns again it returns the same.
   */
  lemma CheckoutAgain(
    m: Market, b: Id, payer: Id, key: string, wanted: Wanted, hold: ProviderCall, now: Time, cs: seq<Command>,
    fakePolicy': bool, hold': ProviderCall, later: Time, table: Table, asked: seq<ProviderRequest>,
        digest: string -> string)
    requires Reachable(m) && b in m.deals
    requires var checkout := Reply(table, ChargeOf(b, m.deals[b], key, wanted), digest);
             CheckoutTx(m.deals[b], payer, true, Trim(key), checkout, hold, now).Commit? &&
             !Collides(m, m.deals[b], checkout, hold)
    ensures var q := ChargeOf(b, m.deals[b], key, wanted);
            var checkout := Reply(table, q, digest);
            var reached := Run(Next(m, On(b, Pay(payer, true, Trim(key), checkout, hold, now))), cs);
            var answer := Reply(RecordedAll(Recorded(table, q, digest), asked, digest), q, digest);
            b in reached.deals && ChargeOf(b, reached.deals[b], key, wanted) == q &&
            Next(reached, On(b, Pay(payer, fakePolicy', Trim(key), answer, hold', later))) == reached &&
            var again := CheckoutTx(reached.deals[b], payer, fakePolicy', Trim(key), answer, hold', later);
            (again.Commit? ==> again.reply == CheckoutTx(m.deals[b], payer, true, Trim(key), checkout, hold, now).reply)
  {
    hide Reachable, Evolves, Next, Run, CheckoutTx, Trim, Reply, Recorded, RecordedAll;
    var q := ChargeOf(b, m.deals[b], key, wanted);
    var checkout := Reply(table, q, digest);
    var pay := Pay(payer, true, Trim(key), checkout, hold, now);
    Later(m, b, pay, cs);
    var reached := Run(Next(m, On(b, pay)), cs);
    Returned(m.deals[b], payer, Trim(key), checkout, hold, now);
    SameTerms(m.deals[b], Exec(m.deals[b], pay), reached.deals[b], pay);
    SameAnswerAgain(table, q, asked, digest);
    if checkout.result.Success? {
      CheckoutReplay(m.deals[b], reached.deals[b], payer, true, Trim(key), checkout, hold, now, fakePolicy', checkout,
          hold', later);
    } else {
      UnpaidReplay(m.deals[b], payer, true, Trim(key), checkout, hold, now);
      UnpaidReplay(reached.deals[b], payer, fakePolicy', Trim(key), checkout, hold', later);
    }
    Unchanged(reached, b, Pay(payer, fakePolicy', Trim(key), checkout, hold', later));
  }

  lemma Returned(d: Deal, payer: Id, key: string, checkout: ProviderCall, hold: ProviderCall, now: Time)
    requires CheckoutTx(d, payer, true, key, checkout, hold, now).Commit?
    ensures checkout.Answer?
    ensures checkout.result.Success? <==> CheckoutTx(d, payer, true, key, checkout, hold, now).reply.Success?
  {
  }

  lemma SameTerms(d: Deal, paid: Deal, next: Deal, pay: Step)
    requires pay.Pay? && paid == Exec(d, pay) && Evolves(paid, next)
    ensures next.terms == d.terms
  {
    hide DepositEvolves, OpsEvolve, DisputeEvolves, ActsEvolve;
  }

  /** While the policy is off both commands are refused before they read anything. */
  lemma RefusedOff(
    d: Deal, admin: Id, decision: string, refund: int, release: int, i: nat, command: string, now: Time)
    ensures ResolveTx(d, admin, false, decision, refund, release, command, now).After(d) == d
    ensures RetryTx(d, i, false, command, now).After(d) == d
  {
  }

  /** A decision that went through, repeated after any run by the same administrator with the same key and payload. */
  lemma ResolveAgain(
    m: Market, b: Id, admin: Id, decision: string, refund: int, release: int, command: string, now: Time,
    cs: seq<Command>, fakePolicy': bool, later: Time)
    requires Reachable(m) && b in m.deals
    requires ResolveTx(m.deals[b], admin, true, decision, refund, release, command, now).Commit?
    ensures var reached := Run(Next(m, On(b, Decide(admin, true, decision, refund, release, command, now))), cs);
            Next(reached, On(b, Decide(admin, fakePolicy', decision, refund, release, command, later))) == reached
  {
    hide Reachable, Inv, Evolves, Next, Run, ResolveTx;
    Later(m, b, Decide(admin, true, decision, refund, release, command, now), cs);
    var reached := Run(Next(m, On(b, Decide(admin, true, decision, refund, release, command, now))), cs);
    ResolveReplay(m.deals[b], reached.deals[b], admin, decision, refund, release, command, now, later);
    RefusedOff(reached.deals[b], admin, decision, refund, release, 0, command, later);
    Unchanged(reached, b, Decide(admin, fakePolicy', decision, refund, release, command, later));
  }

  /** A retry that went through, repeated after any run with the same key: it returns the retry it created. */
  lemma RetryAgain(
    m: Market, b: Id, i: nat, command: string, now: Time, cs: seq<Command>, fakePolicy': bool, later: Time)
    requires Reachable(m) && b in m.deals && RetryTx(m.deals[b], i, true, command, now).Commit?
    ensures var reached := Run(Next(m, On(b, Repeat(i, true, command, now))), cs);
            Next(reached, On(b, Repeat(i, fakePolicy', command, later))) == reached && b in reached.deals &&
            RetryTx(reached.deals[b], i, true, command, later)
              == Commit(reached.deals[b], RetryTx(m.deals[b], i, true, command, now).reply)
  {
    hide Reachable, Inv, Evolves, Next, Run, RetryTx;
    Later(m, b, Repeat(i, true, command, now), cs);
    var reached := Run(Next(m, On(b, Repeat(i, true, command, now))), cs);
    RetryReplay(m.deals[b], reached.deals[b], i, command, now, later);
    RefusedOff(reached.deals[b], 0, "", 0, 0, i, command, later);
    Unchanged(reached, b, Repeat(i, fakePolicy', command, later));
  }

  /** A request that was booked, repeated after any run: no second booking, and the first one is returned. */
  lemma BookAgain(m: Market, id: Id, r: Request, listing: Option<Listing>, policy: Policy, blocked: bool, today: int,
      cs: seq<Command>,
                  id': Id, listing': Option<Listing>, policy': Policy, blocked': bool, today': int)
    requires Reachable(m) && id !in m.deals && BookTx(m, r, listing, policy, blocked, today).New?
    ensures var reached := Run(Next(m, Book(id, r, listing, policy, blocked, today)), cs);
            Next(reached, Book(id', r, listing', policy', blocked', today')) == reached &&
            (Price.ParsePeriod(r.start, r.end, today').Some? ==>
                BookTx(reached, r, listing', policy', blocked', today') == Repeated(id))
  {
    hide Reachable, MarketOk, BookTx, Run, Evolves;
    var c := Book(id, r, listing, policy, blocked, today);
    var reached := Run(Next(m, c), cs);
    ReachableOk(m);
    NextKeeps(m, c);
    RunEvolves(Next(m, c), cs);
    RunKeeps(Next(m, c), cs);
    BookedRow(m, r, listing, policy, blocked, today);
    SameRow(BookTx(m, r, listing, policy, blocked, today).deal, reached.deals[id]);
    StillKnown(reached, id, r, listing', policy', blocked', today');
  }

  lemma SameRow(d: Deal, next: Deal)
    requires Evolves(d, next)
    ensures SameRequest(d, next)
  {
  }

  lemma StillKnown(m: Market, id: Id, r: Request, listing: Option<Listing>, policy: Policy, blocked: bool, today: int)
    requires MarketOk(m) && id in m.deals
    requires m.deals[id].borrower == r.borrower && m.deals[id].request == r.request && m.deals[id].payload == r.payload
    ensures BookTx(m, r, listing, policy, blocked, today) ==
              if Price.ParsePeriod(r.start, r.end, today).Some? then Repeated(id) else Refused(BadRequest)
  {
    hide DealsOk, RequestsClear, NoDoubleBooking, Capped, LeasesFenced, NewTerms;
    assert RequestIn(m, r.borrower, r.request) == Some(id);
  }

  lemma BookedRow(m: Market, r: Request, listing: Option<Listing>, policy: Policy, blocked: bool, today: int)
    requires BookTx(m, r, listing, policy, blocked, today).New?
    ensures var d := BookTx(m, r, listing, policy, blocked, today).deal;
            d.borrower == r.borrower && d.request == r.request && d.payload == r.payload
  {
  }
}
