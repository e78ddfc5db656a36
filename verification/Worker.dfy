/** The worker's calls to the provider: what one operation is asked for again and again, and the ids that come back. */
module Worker {
  import opened Domain
  import opened Deals
  import opened DealInvariant
  import opened Journal
  import DealSteps
  import opened Evolution
  import opened Market
  import opened MarketInvariant
  import opened MarketRuns
  import opened Provider
  import opened Settlement

  /**
   * Whoever claims an operation, and however often, sends the same request; once the provider has answered
   * it, every later execution gets that answer and records nothing, whatever else ran in between.
   */
  lemma ReexecutedSame(
    m: Market, b: Id, d: Deal, i: nat, cs: seq<Command>, keyText: KeyText,
    table: Table, asked: seq<ProviderRequest>, digest: string -> string)
    requires Row(m, b, d) && i < |d.ops| && Reply(table, RequestOf(b, d.ops[i], keyText), digest).Answer?
    ensures b in Run(m, cs).deals && i < |Run(m, cs).deals[b].ops|
    ensures var q, again := RequestOf(b, d.ops[i], keyText), RequestOf(b, Run(m, cs).deals[b].ops[i], keyText);
            var later := RecordedAll(Recorded(table, q, digest), asked, digest);
            again == q && Reply(later, again, digest) == Reply(table, q, digest) &&
                Recorded(later, again, digest) == later
  {
    hide Reachable, Inv, MarketOk, Reply, Recorded, RecordedAll;
    ReachableOk(m);
    RunEvolves(m, cs);
    assert OpEvolves(d.ops[i], Run(m, cs).deals[b].ops[i]);
    SameAnswerAgain(table, RequestOf(b, d.ops[i], keyText), asked, digest);
  }

  /** The idempotency keys of a deposit's operations are pairwise different, as their unique column demands. */
  lemma KeysDistinct(m: Market, b: Id, d: Deal, i: nat, j: nat)
    requires Row(m, b, d) && i < j < |d.ops|
    ensures d.ops[i].key != d.ops[j].key
  {
    hide Row, StatusOk, ActsOk, HistoryOk, TermsOk;
    RowOk(m, b, d);
  }

  /**
   * Two operations, of one booking or of two, are never given the same provider id: the unique column of
   * the ids refuses no success the worker reports.
   */
  lemma OperationIdsDistinct(
    m: Market, b: Id, i: nat, c: Id, j: nat, keyText: KeyText, digest: string -> string)
    requires Reachable(m) && b in m.deals && c in m.deals && i < |m.deals[b].ops| && j < |m.deals[c].ops|
    requires (b, i) != (c, j) && Separates(keyText) && Injective(digest)
    ensures Fresh(RequestOf(b, m.deals[b].ops[i], keyText), digest) !=
            Fresh(RequestOf(c, m.deals[c].ops[j], keyText), digest)
  {
    hide Reachable;
    if b == c {
      var d := m.deals[b];
      if i < j { KeysDistinct(m, b, d, i, j); } else { KeysDistinct(m, b, d, j, i); }
    }
    IdsDistinct(digest, RequestOf(b, m.deals[b].ops[i], keyText), RequestOf(c, m.deals[c].ops[j], keyText));
  }

  /** Nor is a payment given the id of another one: a key charged for one booking is refused for any other. */
  lemma PaymentIdsDistinct(
    table: Table, q: ProviderRequest, r: ProviderRequest, asked: seq<ProviderRequest>, digest: string -> string)
    requires q.Charge? && r.Charge? && q.booking != r.booking && Injective(digest)
    requires Answers(table, digest) && Reply(table, q, digest).Answer?
    ensures var answer := Reply(RecordedAll(Recorded(table, q, digest), asked, digest), r, digest);
            answer.Answer? && answer.result.Success? ==> answer != Reply(table, q, digest)
  {
    hide Fresh;
    if q.key == r.key {
      KeyNotReused(table, q, r, asked, digest);
    } else {
      IdsDistinct(digest, q, r);
      AnswersKept(Recorded(table, q, digest), asked, digest);
    }
  }

  // ---------------------------------------------------------------- runs with the provider's own answers

  /** Every stored operation id is the one the provider gives for that operation. */
  ghost predicate FromProvider(m: Market, keyText: KeyText, digest: string -> string) {
    forall b, i | b in m.deals && 0 <= i < |m.deals[b].ops| && m.deals[b].ops[i].providerId.Some? ::
      Success(m.deals[b].ops[i].providerId.value) == Fresh(RequestOf(b, m.deals[b].ops[i], keyText), digest)
  }

  /** A success under a command is the provider's answer to what was asked. */
  ghost predicate Honest(m: Market, c: Command, keyText: KeyText, digest: string -> string) {
    match c
    case ReportOutcome(k, outcome) =>
      outcome.Success? && k < |m.claims| && m.claims[k].booking in m.deals &&
      m.claims[k].i < |m.deals[m.claims[k].booking].ops| ==>
        outcome == Fresh(RequestOf(m.claims[k].booking, m.deals[m.claims[k].booking].ops[m.claims[k].i], keyText),
            digest)
    case On(b, s) =>
      b in m.deals && s.Pay? && s.hold.Answer? && s.hold.result.Success? ==>
        s.hold.result == Fresh(Move(keyText(b, HoldKey), b, HoldOp, m.deals[b].terms.depositMinor, WantSuccess), digest)
    case _ => true
  }

  /** Where an operation's stored id comes from. */
  lemma IdOrigin(d: Deal, s: Step, j: nat)
    requires Inv(d) && j < |Exec(d, s).ops| && Exec(d, s).ops[j].providerId.Some?
    ensures var op := Exec(d, s).ops[j];
            (j < |d.ops| && d.ops[j].providerId == op.providerId && SameOrder(op, d.ops[j])) ||
            (s.Report? && j == s.i && j < |d.ops| && s.outcome == Success(op.providerId.value) &&
                SameOrder(op, d.ops[j])) ||
            (s.Pay? && s.hold.Answer? && s.hold.result == Success(op.providerId.value) &&
             op.kind == HoldOp && op.key == HoldKey && op.amount == d.terms.depositMinor)
  {
    hide Inv, FindKey, HasRetry, HasLeg, LegPaid, RetryDelay, CompleteTx;
    if s.Report? { ReportIds(d, s, j); }
    else if s.SignAct? || s.Decide? || s.CloseWindow? || s.Finish? { QuietOps(d, s, j); }
  }

  lemma ReportIds(d: Deal, s: Step, j: nat)
    requires Inv(d) && s.Report? && j < |Exec(d, s).ops| && Exec(d, s).ops[j].providerId.Some?
    ensures var op := Exec(d, s).ops[j];
            j < |d.ops| && SameOrder(op, d.ops[j]) &&
            (d.ops[j].providerId == op.providerId || (j == s.i && s.outcome == Success(op.providerId.value)))
  {
    hide Inv, Settling, CompleteTx, LegPaid, RetryDelay;
    if s.i < |d.ops| && d.deposit.Some? && d.ops[s.i].status == Waiting && d.ops[s.i].processingUntil == Some(s.token) {
      if s.outcome.Success? { DealSteps.SuccessKeeps(d, s.i, s.token, s.attempts, s.outcome.providerId, s.now); }
    }
  }

  /** These steps leave the operations alone and append waiting ones. */
  lemma QuietOps(d: Deal, s: Step, j: nat)
    requires Inv(d) && (s.SignAct? || s.Decide? || s.CloseWindow? || s.Finish?) && j < |Exec(d, s).ops|
    ensures var op := Exec(d, s).ops[j];
            if j < |d.ops| then d.ops[j] == op else op.status == Waiting && op.providerId.None?
  {
    hide Inv, Exec;
    if s.Decide? { DecideOps(d, s, j); } else { OtherOps(d, s, j); }
  }

  lemma DecideOps(d: Deal, s: Step, j: nat)
    requires Inv(d) && s.Decide? && j < |Exec(d, s).ops|
    ensures var op := Exec(d, s).ops[j];
            if j < |d.ops| then d.ops[j] == op else op.status == Waiting && op.providerId.None?
  {
    hide Inv, FindKey, HasLeg;
  }

  lemma OtherOps(d: Deal, s: Step, j: nat)
    requires Inv(d) && (s.SignAct? || s.CloseWindow? || s.Finish?) && j < |Exec(d, s).ops|
    ensures var op := Exec(d, s).ops[j];
            if j < |d.ops| then d.ops[j] == op else op.status == Waiting && op.providerId.None?
  {
    hide Inv, FindKey, HasLeg;
  }

  lemma BookedEmpty(m: Market, c: Command, b: Id)
    requires b !in m.deals && b in Next(m, c).deals
    ensures Next(m, c).deals[b].ops == []
  {
    hide Exec, ConfirmRefusal, NewTerms;
  }

  lemma HonestKeeps(m: Market, c: Command, keyText: KeyText, digest: string -> string)
    requires Reachable(m) && FromProvider(m, keyText, digest) && Honest(m, c, keyText, digest)
    ensures FromProvider(Next(m, c), keyText, digest)
  {
    hide Reachable, Inv, Exec, Next, Fresh;
    var next := Next(m, c);
    forall b, j | b in next.deals && 0 <= j < |next.deals[b].ops| && next.deals[b].ops[j].providerId.Some?
      ensures Success(next.deals[b].ops[j].providerId.value) ==
              Fresh(RequestOf(b, next.deals[b].ops[j], keyText), digest)
    {
      if b !in m.deals { BookedEmpty(m, c, b); }
      else {
        var s := StepTaken(m, c, b);
        RowOk(m, b, m.deals[b]);
        if s.Some? { IdOrigin(m.deals[b], s.value, j); }
      }
    }
  }

  ghost predicate HonestRun(m: Market, cs: seq<Command>, keyText: KeyText, digest: string -> string)
    decreases |cs|
  {
    cs != [] ==> Honest(m, cs[0], keyText, digest) && HonestRun(Next(m, cs[0]), cs[1..], keyText, digest)
  }

  lemma {:induction false} HonestRunKeeps(m: Market, cs: seq<Command>, keyText: KeyText, digest: string -> string)
    requires Reachable(m) && FromProvider(m, keyText, digest) && HonestRun(m, cs, keyText, digest)
    ensures Reachable(Run(m, cs)) && FromProvider(Run(m, cs), keyText, digest)
    decreases |cs|
  {
    hide Reachable, Next, FromProvider, Honest;
    if cs != [] {
      HonestKeeps(m, cs[0], keyText, digest);
      ReachableNext(m, cs[0]);
      HonestRunKeeps(Next(m, cs[0]), cs[1..], keyText, digest);
    }
  }

  /** What the provider answers for a waiting operation no row has. */
  lemma WaitingIdNew(m: Market, b: Id, i: nat, id: string, keyText: KeyText, digest: string -> string)
    requires Reachable(m) && FromProvider(m, keyText, digest) && Separates(keyText) && Injective(digest)
    requires b in m.deals && i < |m.deals[b].ops| && m.deals[b].ops[i].status == Waiting
    requires Success(id) == Fresh(RequestOf(b, m.deals[b].ops[i], keyText), digest)
    ensures !OperationIdTaken(m, id)
  {
    hide Reachable, Inv, Fresh;
    RowOk(m, b, m.deals[b]);
    WithinDeposit(m.deals[b], i);
    forall c, j | c in m.deals && 0 <= j < |m.deals[c].ops| ensures m.deals[c].ops[j].providerId != Some(id) {
      if (c, j) != (b, i) && m.deals[c].ops[j].providerId.Some? {
        OperationIdsDistinct(m, b, i, c, j, keyText, digest);
      }
    }
  }

  /**
   * In every run in which successes are the provider's own answers, the unique column of operation ids
   * refuses no success of a waiting operation.
   */
  lemma SuccessNeverCollides(
    clock: Time, cs: seq<Command>, b: Id, i: nat, id: string, keyText: KeyText, digest: string -> string)
    requires Separates(keyText) && Injective(digest) && HonestRun(Start(clock), cs, keyText, digest)
    requires var m := Run(Start(clock), cs);
             b in m.deals && i < |m.deals[b].ops| && m.deals[b].ops[i].status == Waiting &&
             Success(id) == Fresh(RequestOf(b, m.deals[b].ops[i], keyText), digest)
    ensures !OperationIdTaken(Run(Start(clock), cs), id)
  {
    hide Reachable, Inv, Run, HonestRun, Fresh, OperationIdTaken, Separates, Injective;
    RunsFromStart(clock);
    HonestRunKeeps(Start(clock), cs, keyText, digest);
    WaitingIdNew(Run(Start(clock), cs), b, i, id, keyText, digest);
  }

  lemma RunsFromStart(clock: Time)
    ensures Reachable(Start(clock))
  {
    assert Run(Start(clock), []) == Start(clock);
  }

  // ---------------------------------------------------------------- the unique column itself

  ghost predicate IdsUnique(m: Market) {
    forall b, i, c, j | b in m.deals && c in m.deals && 0 <= i < |m.deals[b].ops| && 0 <= j < |m.deals[c].ops| &&
                        m.deals[b].ops[i].providerId.Some? &&
                        m.deals[b].ops[i].providerId == m.deals[c].ops[j].providerId ::
      b == c && i == j
  }

  /** Whatever the provider answers, no command stores one provider id for two operations. */
  lemma UniqueKept(m: Market, c: Command)
    requires Reachable(m) && IdsUnique(m)
    ensures IdsUnique(Next(m, c))
  {
    hide Reachable, Inv, Exec, Next;
    var next := Next(m, c);
    forall b, i, x, j | b in next.deals && x in next.deals &&
                        0 <= i < |next.deals[b].ops| && 0 <= j < |next.deals[x].ops| &&
                        next.deals[b].ops[i].providerId.Some? &&
                        next.deals[b].ops[i].providerId == next.deals[x].ops[j].providerId
      ensures b == x && i == j
    {
      Stored(m, c, b, i);
      Stored(m, c, x, j);
    }
  }

  /** So the column is unique in every reachable state. */
  lemma AlwaysUnique(m: Market)
    requires Reachable(m)
    ensures IdsUnique(m)
  {
    hide Run, IdsUnique;
    var clock, cs :| Run(Start(clock), cs) == m;
    RunsFromStart(clock);
    NothingStored(clock);
    UniqueOverRun(Start(clock), cs);
  }

  lemma NothingStored(clock: Time)
    ensures IdsUnique(Start(clock))
  {
  }

  lemma {:induction false} UniqueOverRun(m: Market, cs: seq<Command>)
    requires Reachable(m) && IdsUnique(m)
    ensures IdsUnique(Run(m, cs))
    decreases |cs|
  {
    hide Reachable, Next, IdsUnique;
    if cs != [] {
      UniqueKept(m, cs[0]);
      ReachableNext(m, cs[0]);
      UniqueOverRun(Next(m, cs[0]), cs[1..]);
    }
  }

  /** A stored id was there before under the same operation, or is new to the column and written by this command. */
  lemma Stored(m: Market, c: Command, b: Id, j: nat)
    requires Reachable(m) && b in Next(m, c).deals && j < |Next(m, c).deals[b].ops| &&
             Next(m, c).deals[b].ops[j].providerId.Some?
    ensures var id := Next(m, c).deals[b].ops[j].providerId;
            (b in m.deals && j < |m.deals[b].ops| && m.deals[b].ops[j].providerId == id) ||
            (!OperationIdTaken(m, id.value) && WritesIdAt(m, c, b, j))
  {
    hide Reachable, Inv, Exec, Next, OperationIdTaken, PaymentIdTaken;
    if b !in m.deals { BookedEmpty(m, c, b); }
    else {
      var s := StepTaken(m, c, b);
      RowOk(m, b, m.deals[b]);
      if s.Some? {
        IdOrigin(m.deals[b], s.value, j);
        if s.value.Pay? { PayAppends(m.deals[b], s.value, j); }
      }
    }
  }

  /** The one operation a command may give an id to. */
  ghost predicate WritesIdAt(m: Market, c: Command, b: Id, j: nat) {
    match c
    case ReportOutcome(k, _) => k < |m.claims| && m.claims[k].booking == b && m.claims[k].i == j
    case On(x, _) => x == b && b in m.deals && j == |m.deals[b].ops|
    case _ => false
  }

  lemma PayAppends(d: Deal, s: Step, j: nat)
    requires s.Pay? && j < |Exec(d, s).ops|
    ensures j < |d.ops| ==> Exec(d, s).ops[j] == d.ops[j]
    ensures j >= |d.ops| ==>
            j == |d.ops| && d.payment.None? && d.deposit.Some? && s.checkout.Answer? &&
            s.checkout.result.Success?
  {
  }
}
