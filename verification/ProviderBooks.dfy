/** What the provider has recorded, against the rows: every payment and every moved part of a deposit has its entry. */
module ProviderBooks {
  import opened Domain
  import opened Deals
  import DealSteps
  import opened DealInvariant
  import opened Evolution
  import opened Journal
  import opened Market
  import opened MarketInvariant
  import opened MarketRuns
  import opened Provider
  import opened Settlement
  import opened Worker
  import opened Backend

  // ---------------------------------------------------------------- charges

  /** The provider has charged this payment: for this booking, exactly its amount, under the id it was stored with. */
  ghost predicate Charged(t: Table, key: string, b: Id, p: Payment) {
    key in t && t[key].request.Charge? && t[key].request.booking == b && t[key].request.amount == p.amount &&
    t[key].result == Success(p.providerId)
  }

  ghost predicate ChargesOk(w: Whole) {
    forall b | b in w.market.deals && w.market.deals[b].payment.Some? ::
      b in w.keys && Charged(w.table, w.keys[b], b, w.market.deals[b].payment.value)
  }

  /** What a checkout that stores a payment was answered, and what it stores. */
  lemma PaidAsCharged(d: Deal, s: Step)
    requires Inv(d) && s.Pay? && d.payment.None? && Exec(d, s).payment.Some?
    ensures s.checkout == Answer(Success(Exec(d, s).payment.value.providerId))
    ensures Exec(d, s).payment.value.amount == d.terms.totalMinor
  {
    hide Inv;
  }

  lemma ChargeAnswered(w: Whole, e: Event, x: Texts)
    requires Answers(w.table, x.digest) && e.CheckOut? && e.b in w.market.deals && Answered(w, e, x).checkout.Answer?
    ensures var t, d := TableAfter(w, e, x), w.market.deals[e.b];
            e.key in t && t[e.key].request.Charge? && t[e.key].request.booking == e.b &&
            t[e.key].request.amount == d.terms.totalMinor && Answer(t[e.key].result) == Answered(w, e, x).checkout
  {
    hide Fresh, AsksHold;
  }

  lemma ChargesKept(w: Whole, e: Event, x: Texts)
    requires WholeOk(w, x) && ChargesOk(w) && !e.Restart?
    ensures ChargesOk(After(w, e, x))
  {
    hide WholeOk, Charged, Inv, Exec, Next, Reachable, Answers, TableAfter, AskCheckout;
    var next := After(w, e, x);
    Facts(w, x);
    AfterOk(w, e, x);
    forall b | b in next.market.deals && next.market.deals[b].payment.Some?
      ensures b in next.keys && Charged(next.table, next.keys[b], b, next.market.deals[b].payment.value)
    {
      if b in w.market.deals && w.market.deals[b].payment.Some? {
        PaymentsKept(w, e, x, b);
        ChargeKept(w, e, x, b);
      } else {
        PaymentsKept(w, e, x, b);
        NewCharge(w, e, x);
      }
    }
  }

  lemma ChargeKept(w: Whole, e: Event, x: Texts, b: Id)
    requires !e.Restart? && b in w.keys && b in w.market.deals && w.market.deals[b].payment.Some?
    requires Charged(w.table, w.keys[b], b, w.market.deals[b].payment.value)
    ensures b in After(w, e, x).keys
    ensures Charged(After(w, e, x).table, After(w, e, x).keys[b], b, w.market.deals[b].payment.value)
  {
    hide TableAfter, MarketAfter;
    TableKept(w, e, x, w.keys[b]);
  }

  lemma NewCharge(w: Whole, e: Event, x: Texts)
    requires WholeOk(w, x) && e.CheckOut? && e.b in w.market.deals && w.market.deals[e.b].payment.None?
    requires e.b in After(w, e, x).market.deals && After(w, e, x).market.deals[e.b].payment.Some?
    ensures var next := After(w, e, x);
            e.b in next.keys && Charged(next.table, next.keys[e.b], e.b, next.market.deals[e.b].payment.value)
  {
    hide WholeOk, Inv, Exec, Next, Reachable, Answers, TableAfter, AskCheckout;
    Facts(w, x);
    var s := StepTaken(w.market, AsCommand(w, e, x).value, e.b);
    RowOk(w.market, e.b, w.market.deals[e.b]);
    PaymentOrigin(w.market.deals[e.b], s.value);
    PaidAsCharged(w.market.deals[e.b], s.value);
    ChargeAnswered(w, e, x);
  }

  // ---------------------------------------------------------------- moves

  /** The provider has moved this operation: of this deposit, its own kind and amount, under its stored id. */
  ghost predicate Moved(t: Table, key: string, b: Id, op: Operation) {
    key in t && t[key].request.Move? && t[key].request.deposit == b && t[key].request.kind == op.kind &&
    t[key].request.amount == op.amount && op.providerId.Some? && t[key].result == Success(op.providerId.value)
  }

  ghost predicate MovesOk(w: Whole, x: Texts) {
    forall b, i | b in w.market.deals && 0 <= i < |w.market.deals[b].ops| &&
                  w.market.deals[b].ops[i].status == Succeeded ::
      Moved(w.table, x.keyText(b, w.market.deals[b].ops[i].key), b, w.market.deals[b].ops[i])
  }

  /** Where a succeeded operation comes from. */
  lemma SuccessOrigin(d: Deal, s: Step, j: nat)
    requires Inv(d) && j < |Exec(d, s).ops| && Exec(d, s).ops[j].status == Succeeded
    ensures var op := Exec(d, s).ops[j];
            (j < |d.ops| && d.ops[j].status == Succeeded && d.ops[j].providerId == op.providerId &&
             SameOrder(op, d.ops[j])) ||
            (s.Report? && j == s.i && j < |d.ops| && op.providerId.Some? && SameOrder(op, d.ops[j]) &&
             s.outcome == Success(op.providerId.value)) ||
            (s.Pay? && s.hold.Answer? && op.providerId.Some? && s.hold.result == Success(op.providerId.value) &&
             op.kind == HoldOp && op.key == HoldKey && op.amount == d.terms.depositMinor && d.payment.None? &&
             s.checkout.Answer? && s.checkout.result.Success?)
  {
    hide Inv, FindKey, HasRetry, HasLeg, LegPaid, RetryDelay, CompleteTx;
    if s.Report? { ReportedSuccess(d, s, j); }
    else if s.SignAct? || s.Decide? || s.CloseWindow? || s.Finish? { QuietOps(d, s, j); }
  }

  lemma ReportedSuccess(d: Deal, s: Step, j: nat)
    requires Inv(d) && s.Report? && j < |Exec(d, s).ops| && Exec(d, s).ops[j].status == Succeeded
    ensures var op := Exec(d, s).ops[j];
            j < |d.ops| && SameOrder(op, d.ops[j]) &&
            ((d.ops[j].status == Succeeded && d.ops[j].providerId == op.providerId) ||
             (j == s.i && op.providerId.Some? && s.outcome == Success(op.providerId.value)))
  {
    hide Inv, Settling, CompleteTx, LegPaid, RetryDelay;
    if s.i < |d.ops| && d.deposit.Some? && d.ops[s.i].status == Waiting && d.ops[s.i].processingUntil == Some(s.token) {
      if s.outcome.Success? { DealSteps.SuccessKeeps(d, s.i, s.token, s.attempts, s.outcome.providerId, s.now); }
    }
  }

  lemma HoldAnswered(w: Whole, e: Event, x: Texts)
    requires Answers(w.table, x.digest) && e.CheckOut? && e.b in w.market.deals && Answered(w, e, x).hold.Answer?
    ensures var t, d, key := TableAfter(w, e, x), w.market.deals[e.b], x.keyText(e.b, HoldKey);
            key in t && t[key].request.Move? && t[key].request.deposit == e.b && t[key].request.kind == HoldOp &&
            t[key].request.amount == d.terms.depositMinor && Answer(t[key].result) == Answered(w, e, x).hold
  {
    hide Fresh;
  }

  lemma WorkAnswered(w: Whole, e: Event, x: Texts)
    requires Answers(w.table, x.digest) && e.Work? && Leased(w.market, e.k) && ReportOf(w, e, x).outcome.Success?
    ensures var t, b := TableAfter(w, e, x), w.market.claims[e.k].booking;
            var op := w.market.deals[b].ops[w.market.claims[e.k].i];
            var key := x.keyText(b, op.key);
            key in t && t[key].request.Move? && t[key].request.deposit == b && t[key].request.kind == op.kind &&
            t[key].request.amount == op.amount && t[key].result == ReportOf(w, e, x).outcome
  {
    hide Fresh;
  }

  lemma MoveKept(w: Whole, e: Event, x: Texts, b: Id, op: Operation, key: string)
    requires !e.Restart? && Moved(w.table, key, b, op)
    ensures Moved(TableAfter(w, e, x), key, b, op)
  {
    hide TableAfter;
    TableKept(w, e, x, key);
  }

  lemma MovesKept(w: Whole, e: Event, x: Texts)
    requires WholeOk(w, x) && MovesOk(w, x) && !e.Restart?
    ensures MovesOk(After(w, e, x), x)
  {
    hide WholeOk, Moved, Inv, Exec, Next, Reachable, Answers, TableAfter, AskCheckout, KeysAfter;
    var next := After(w, e, x);
    forall b, i | b in next.market.deals && 0 <= i < |next.market.deals[b].ops| &&
                  next.market.deals[b].ops[i].status == Succeeded
      ensures Moved(next.table, x.keyText(b, next.market.deals[b].ops[i].key), b, next.market.deals[b].ops[i])
    {
      MoveThere(w, e, x, b, i);
    }
  }

  lemma MoveThere(w: Whole, e: Event, x: Texts, b: Id, i: nat)
    requires WholeOk(w, x) && MovesOk(w, x) && !e.Restart?
    requires b in MarketAfter(w, e, x).deals && i < |MarketAfter(w, e, x).deals[b].ops|
    requires MarketAfter(w, e, x).deals[b].ops[i].status == Succeeded
    ensures var op := MarketAfter(w, e, x).deals[b].ops[i]; Moved(TableAfter(w, e, x), x.keyText(b, op.key), b, op)
  {
    hide WholeOk, Inv, Exec, Next, Reachable, Answers, TableAfter, AskCheckout, Moved;
    Facts(w, x);
    var op := MarketAfter(w, e, x).deals[b].ops[i];
    if AsCommand(w, e, x).None? {
      MoveKept(w, e, x, b, op, x.keyText(b, op.key));
    } else {
      if b !in w.market.deals { BookedEmpty(w.market, AsCommand(w, e, x).value, b); }
      var s := StepTaken(w.market, AsCommand(w, e, x).value, b);
      RowOk(w.market, b, w.market.deals[b]);
      if s.Some? {
        SuccessOrigin(w.market.deals[b], s.value, i);
        OpsKept(w.market.deals[b], s.value);
      }
      if i < |w.market.deals[b].ops| && w.market.deals[b].ops[i].status == Succeeded {
        SameMove(w.table, x.keyText(b, op.key), b, w.market.deals[b].ops[i], op);
        MoveKept(w, e, x, b, op, x.keyText(b, op.key));
      } else {
        NewMove(w, e, x, b, i, s.value);
      }
    }
  }

  lemma OpsKept(d: Deal, s: Step)
    requires Inv(d)
    ensures OpsEvolve(d.ops, Exec(d, s).ops)
  {
    hide Inv, Exec;
    ExecEvolves(d, s);
  }

  lemma SameMove(t: Table, key: string, b: Id, op: Operation, next: Operation)
    requires Moved(t, key, b, op) && OpEvolves(op, next)
    ensures Moved(t, key, b, next)
  {
  }

  lemma NewMove(w: Whole, e: Event, x: Texts, b: Id, i: nat, s: Step)
    requires Reachable(w.market) && Answers(w.table, x.digest) && AsCommand(w, e, x).Some? && b in w.market.deals
    requires Inv(w.market.deals[b]) && i < |Exec(w.market.deals[b], s).ops|
    requires s.Pay? ==> AsCommand(w, e, x).value == On(b, s)
    requires s.Report? ==>
               var c := AsCommand(w, e, x).value;
               c.ReportOutcome? && c.k < |w.market.claims| && w.market.claims[c.k].booking == b &&
               w.market.claims[c.k].i == s.i && c.outcome == s.outcome
    requires var d, op := w.market.deals[b], Exec(w.market.deals[b], s).ops[i];
             (s.Report? && i == s.i && i < |d.ops| && op.providerId.Some? && SameOrder(op, d.ops[i]) &&
              s.outcome == Success(op.providerId.value)) ||
             (s.Pay? && s.hold.Answer? && op.providerId.Some? && s.hold.result == Success(op.providerId.value) &&
              op.kind == HoldOp && op.key == HoldKey && op.amount == d.terms.depositMinor)
    ensures var op := Exec(w.market.deals[b], s).ops[i]; Moved(TableAfter(w, e, x), x.keyText(b, op.key), b, op)
  {
    hide Inv, Exec, Reachable, Answers, TableAfter, AskCheckout, Reply, Fresh;
    if s.Report? { WorkAnswered(w, e, x); } else { HoldAnswered(w, e, x); }
  }

  // ---------------------------------------------------------------- runs without a restart

  ghost predicate BooksOk(w: Whole, x: Texts) {
    WholeOk(w, x) && ChargesOk(w) && MovesOk(w, x)
  }

  lemma {:induction false} BooksThrough(w: Whole, es: seq<Event>, x: Texts)
    requires BooksOk(w, x) && Restart !in es
    ensures BooksOk(Through(w, es, x), x)
    decreases |es|
  {
    hide WholeOk, After, ChargesOk, MovesOk;
    if es != [] {
      AfterOk(w, es[0], x);
      ChargesKept(w, es[0], x);
      MovesKept(w, es[0], x);
      BooksThrough(After(w, es[0], x), es[1..], x);
    }
  }

  lemma UnbrokenBooks(w: Whole, x: Texts)
    requires ReachedUnbroken(w, x)
    ensures BooksOk(w, x)
  {
    hide BooksOk, Through;
    var clock, es :| Restart !in es && Through(Initially(clock), es, x) == w;
    EmptyBooks(clock, x);
    BooksThrough(Initially(clock), es, x);
  }

  lemma EmptyBooks(clock: Time, x: Texts)
    ensures BooksOk(Initially(clock), x)
  {
    InitiallyOk(clock, x);
    hide WholeOk;
  }

  /**
   * As long as the provider keeps its table, every stored payment was charged: the provider has an entry under the
   * payment's key, for this booking, of exactly the amount stored and answered with the id stored.
   */
  lemma PaymentsCharged(w: Whole, x: Texts, b: Id)
    requires ReachedUnbroken(w, x) && b in w.market.deals && w.market.deals[b].payment.Some?
    ensures b in w.keys && w.keys[b] in w.table
    ensures var p, entry := w.market.deals[b].payment.value, w.table[w.keys[b]];
            entry.request.Charge? && entry.request.booking == b && entry.request.amount == p.amount &&
            entry.result == Success(p.providerId)
  {
    hide ReachedUnbroken, WholeOk, MovesOk;
    UnbrokenBooks(w, x);
  }

  /**
   * And every succeeded operation was moved: the provider has an entry for this deposit, of the operation's own
   * kind and amount, answered with the id stored.
   */
  lemma OperationsMoved(w: Whole, x: Texts, b: Id, i: nat)
    requires ReachedUnbroken(w, x) && b in w.market.deals && i < |w.market.deals[b].ops|
    requires w.market.deals[b].ops[i].status == Succeeded
    ensures w.market.deals[b].ops[i].providerId.Some?
    ensures var op := w.market.deals[b].ops[i];
            var key := x.keyText(b, op.key);
            key in w.table && w.table[key].request.Move? && w.table[key].request.deposit == b &&
            w.table[key].request.kind == op.kind && w.table[key].request.amount == op.amount &&
            w.table[key].result == Success(op.providerId.value)
  {
    hide ReachedUnbroken, WholeOk, ChargesOk;
    UnbrokenBooks(w, x);
  }

  // ---------------------------------------------------------------- sums over the provider's table

  /** What the requests under these keys amount to. */
  ghost function Total(t: Table, keys: set<string>): int
    requires keys <= t.Keys
    decreases |keys|
  {
    if keys == {} then 0
    else
      var key :| key in keys;
      t[key].request.amount + Total(t, keys - {key})
  }

  lemma {:induction false} TotalWithout(t: Table, keys: set<string>, key: string)
    requires keys <= t.Keys && key in keys
    ensures Total(t, keys) == t[key].request.amount + Total(t, keys - {key})
    decreases |keys|
  {
    var first :| first in keys && Total(t, keys) == t[first].request.amount + Total(t, keys - {first});
    if first != key {
      TotalWithout(t, keys - {first}, key);
      TotalWithout(t, keys - {key}, first);
      assert keys - {first} - {key} == keys - {key} - {first};
    }
  }

  /** The entries for one deposit and one kind that the provider has moved. */
  function MovesOf(t: Table, b: Id, kind: OpKind): set<string> {
    set key | key in t && t[key].request.Move? && t[key].request.deposit == b && t[key].request.kind == kind &&
              t[key].result.Success?
  }

  /** The key texts of the first `n` operations of a kind; of the succeeded ones only, or of all. */
  function TextsOf(b: Id, ops: seq<Operation>, kind: OpKind, n: nat, done: bool, keyText: KeyText): set<string>
    requires n <= |ops|
  {
    set i | 0 <= i < n && ops[i].kind == kind && (done ==> ops[i].status == Succeeded) :: keyText(b, ops[i].key)
  }

  ghost predicate DifferentKeys(ops: seq<Operation>) {
    forall i, j | 0 <= i < j < |ops| :: ops[i].key != ops[j].key
  }

  /** The last operation adds its text or none. */
  lemma OneMoreText(b: Id, ops: seq<Operation>, kind: OpKind, n: nat, done: bool, keyText: KeyText)
    requires n < |ops| && Separates(keyText) && DifferentKeys(ops)
    ensures var before, after := TextsOf(b, ops, kind, n, done, keyText), TextsOf(b, ops, kind, n + 1, done, keyText);
            var text := keyText(b, ops[n].key);
            text !in before &&
            after == if ops[n].kind == kind && (done ==> ops[n].status == Succeeded) then before + {text} else before
  {
    var before, after := TextsOf(b, ops, kind, n, done, keyText), TextsOf(b, ops, kind, n + 1, done, keyText);
    var text := keyText(b, ops[n].key);
    assert forall i | 0 <= i < n :: ops[i].key != ops[n].key;
    var more := if ops[n].kind == kind && (done ==> ops[n].status == Succeeded) then before + {text} else before;
    forall t ensures t in after <==> t in more {
      if t in before {
        var i :| 0 <= i < n && ops[i].kind == kind && (done ==> ops[i].status == Succeeded) &&
          keyText(b, ops[i].key) == t;
      }
    }
  }

  /** What is credited is what the provider has moved under the keys of the succeeded operations. */
  lemma {:induction false} CreditedIsMoved(
    t: Table, b: Id, ops: seq<Operation>, kind: OpKind, n: nat, keyText: KeyText)
    requires n <= |ops| && Separates(keyText) && DifferentKeys(ops)
    requires forall i | 0 <= i < |ops| && ops[i].status == Succeeded :: Moved(t, keyText(b, ops[i].key), b, ops[i])
    ensures TextsOf(b, ops, kind, n, true, keyText) <= MovesOf(t, b, kind)
    ensures Total(t, TextsOf(b, ops, kind, n, true, keyText)) == Credited(ops, kind, n)
    decreases n
  {
    hide Separates, DifferentKeys;
    if n > 0 {
      CreditedIsMoved(t, b, ops, kind, n - 1, keyText);
      OneMoreText(b, ops, kind, n - 1, true, keyText);
      var before := TextsOf(b, ops, kind, n - 1, true, keyText);
      var text := keyText(b, ops[n - 1].key);
      if ops[n - 1].kind == kind && ops[n - 1].status == Succeeded {
        assert text in MovesOf(t, b, kind);
        TotalWithout(t, before + {text}, text);
        assert before + {text} - {text} == before;
      }
    }
  }

  lemma ReachedKeys(w: Whole, x: Texts, b: Id)
    requires ReachedUnbroken(w, x) && b in w.market.deals
    ensures Row(w.market, b, w.market.deals[b]) && DifferentKeys(w.market.deals[b].ops)
  {
    hide ReachedUnbroken, WholeOk, ChargesOk, MovesOk;
    UnbrokenBooks(w, x);
    Facts(w, x);
    hide Reachable, Row;
    assert Row(w.market, b, w.market.deals[b]) by { RowIs(w.market, b); }
    var d := w.market.deals[b];
    forall i, j | 0 <= i < j < |d.ops| ensures d.ops[i].key != d.ops[j].key { KeysDistinct(w.market, b, d, i, j); }
  }

  lemma RowIs(m: Market, b: Id)
    requires Reachable(m) && b in m.deals
    ensures Row(m, b, m.deals[b])
  {
  }

  /** What a deposit row says was refunded or released, the provider has moved under the operations' own keys. */
  lemma DepositMoved(w: Whole, x: Texts, b: Id)
    requires ReachedUnbroken(w, x) && Separates(x.keyText) && b in w.market.deals && w.market.deals[b].deposit.Some?
    ensures var d, t := w.market.deals[b], w.table;
            var refunds := TextsOf(b, d.ops, RefundOp, |d.ops|, true, x.keyText);
            var releases := TextsOf(b, d.ops, ReleaseOp, |d.ops|, true, x.keyText);
            refunds <= MovesOf(t, b, RefundOp) && Total(t, refunds) == d.deposit.value.refunded &&
            releases <= MovesOf(t, b, ReleaseOp) && Total(t, releases) == d.deposit.value.released
  {
    hide ReachedUnbroken, WholeOk, ChargesOk, Row, Moved, Separates, DifferentKeys;
    UnbrokenBooks(w, x);
    ReachedKeys(w, x, b);
    var d := w.market.deals[b];
    Conservation(w.market, b, d);
    CreditedIsMoved(w.table, b, d.ops, RefundOp, |d.ops|, x.keyText);
    CreditedIsMoved(w.table, b, d.ops, ReleaseOp, |d.ops|, x.keyText);
  }

  // ---------------------------------------------------------------- with the provider's own answers only

  /** No restart, and no decline: the provider never declines what a worker asks. */
  predicate Own(e: Event) {
    !e.Restart? && !(e.Plain? && e.c.ReportOutcome? && e.c.outcome.Declined?)
  }

  ghost predicate NoneFailed(m: Market) {
    forall b, i | b in m.deals && 0 <= i < |m.deals[b].ops| :: m.deals[b].ops[i].status != Failed
  }

  ghost predicate Asks(op: Operation, r: ProviderRequest, b: Id, keyText: KeyText)
    requires r.Move?
  {
    keyText(b, op.key) == r.key && op.kind == r.kind && op.amount == r.amount
  }

  /** Every refund and release the provider was asked for is an operation's. */
  ghost predicate EntriesOk(w: Whole, x: Texts) {
    forall key | key in w.table && w.table[key].request.Move? &&
                 (w.table[key].request.kind == RefundOp || w.table[key].request.kind == ReleaseOp) ::
      EntryOk(w.market, w.table[key].request, x)
  }

  ghost predicate EntryOk(m: Market, r: ProviderRequest, x: Texts)
    requires r.Move?
  {
    r.deposit in m.deals && exists i | 0 <= i < |m.deals[r.deposit].ops| ::
      Asks(m.deals[r.deposit].ops[i], r, r.deposit, x.keyText)
  }

  lemma FailureOrigin(d: Deal, s: Step, j: nat)
    requires Inv(d) && j < |Exec(d, s).ops| && Exec(d, s).ops[j].status == Failed
    ensures (j < |d.ops| && d.ops[j].status == Failed) || (s.Report? && s.outcome.Declined?)
  {
    hide Inv, FindKey, HasRetry, HasLeg, LegPaid, RetryDelay, CompleteTx;
    if s.Report? { ReportedFailure(d, s, j); }
    else if s.SignAct? || s.Decide? || s.CloseWindow? || s.Finish? { QuietOps(d, s, j); }
  }

  lemma ReportedFailure(d: Deal, s: Step, j: nat)
    requires Inv(d) && s.Report? && j < |Exec(d, s).ops| && Exec(d, s).ops[j].status == Failed
    ensures (j < |d.ops| && d.ops[j].status == Failed) || s.outcome.Declined?
  {
    hide Inv, Settling, CompleteTx, LegPaid, RetryDelay;
    if s.i < |d.ops| && d.deposit.Some? && d.ops[s.i].status == Waiting && d.ops[s.i].processingUntil == Some(s.token) {
      if s.outcome.Success? { DealSteps.SuccessKeeps(d, s.i, s.token, s.attempts, s.outcome.providerId, s.now); }
    }
  }

  lemma WorkDeclinesNothing(w: Whole, e: Event, x: Texts)
    requires Answers(w.table, x.digest) && e.Work? && Leased(w.market, e.k)
    ensures !ReportOf(w, e, x).outcome.Declined?
  {
    hide Reply, Answers;
    ReplyIsFresh(w.table, Sent(w.market, e.k, x), x.digest);
  }

  lemma NoneFailedKept(w: Whole, e: Event, x: Texts)
    requires WholeOk(w, x) && NoneFailed(w.market) && Own(e)
    ensures NoneFailed(MarketAfter(w, e, x))
  {
    hide WholeOk, Inv, Exec, Next, Reachable, Answers, AskCheckout, Reply;
    Facts(w, x);
    var next := MarketAfter(w, e, x);
    if AsCommand(w, e, x).Some? {
      var c := AsCommand(w, e, x).value;
      forall b, i | b in next.deals && 0 <= i < |next.deals[b].ops| ensures next.deals[b].ops[i].status != Failed {
        if b !in w.market.deals { BookedEmpty(w.market, c, b); }
        else {
          var s := StepTaken(w.market, c, b);
          RowOk(w.market, b, w.market.deals[b]);
          if next.deals[b].ops[i].status == Failed && s.Some? { FailureOrigin(w.market.deals[b], s.value, i); }
          if e.Work? { WorkDeclinesNothing(w, e, x); }
        }
      }
    }
  }

  /** A new entry is a charge, a hold, or what a worker asked for. */
  lemma EntryOrigin(w: Whole, e: Event, x: Texts, key: string)
    requires key in TableAfter(w, e, x) && Answers(w.table, x.digest)
    ensures var r := TableAfter(w, e, x)[key].request;
            (key in w.table && w.table[key].request == r) || r.Charge? || r.kind == HoldOp ||
            (e.Work? && Leased(w.market, e.k) && r == Sent(w.market, e.k, x))
  {
    hide Fresh, AsksHold;
  }

  lemma EntriesKept(w: Whole, e: Event, x: Texts)
    requires WholeOk(w, x) && EntriesOk(w, x)
    ensures EntriesOk(After(w, e, x), x)
  {
    hide WholeOk, TableAfter, MarketAfter, EntryOk, KeysAfter, Reachable, Answers, Sent;
    Facts(w, x);
    var t := TableAfter(w, e, x);
    forall key | key in t && t[key].request.Move? &&
                 (t[key].request.kind == RefundOp || t[key].request.kind == ReleaseOp)
      ensures EntryOk(MarketAfter(w, e, x), t[key].request, x)
    {
      EntryOrigin(w, e, x, key);
      if !(key in w.table && w.table[key].request == t[key].request) { AskedEntry(w, e, x); }
      EntryStays(w, e, x, t[key].request);
    }
  }

  lemma AskedEntry(w: Whole, e: Event, x: Texts)
    requires e.Work? && Leased(w.market, e.k)
    ensures EntryOk(w.market, Sent(w.market, e.k, x), x)
  {
    var c := w.market.claims[e.k];
    assert Asks(w.market.deals[c.booking].ops[c.i], Sent(w.market, e.k, x), c.booking, x.keyText);
  }

  lemma EntryStays(w: Whole, e: Event, x: Texts, r: ProviderRequest)
    requires Reachable(w.market) && r.Move? && EntryOk(w.market, r, x)
    ensures EntryOk(MarketAfter(w, e, x), r, x)
  {
    hide Reachable, Inv, Exec, Next, AsCommand;
    if AsCommand(w, e, x).Some? {
      var b := r.deposit;
      var i :| 0 <= i < |w.market.deals[b].ops| && Asks(w.market.deals[b].ops[i], r, b, x.keyText);
      var s := StepTaken(w.market, AsCommand(w, e, x).value, b);
      RowOk(w.market, b, w.market.deals[b]);
      if s.Some? { OpsKept(w.market.deals[b], s.value); }
      assert Asks(MarketAfter(w, e, x).deals[b].ops[i], r, b, x.keyText);
    }
  }

  ghost predicate ReachedByOwn(w: Whole, x: Texts) {
    exists clock, es :: (forall e | e in es :: Own(e)) && Through(Initially(clock), es, x) == w
  }

  lemma {:induction false} OwnThrough(w: Whole, es: seq<Event>, x: Texts)
    requires WholeOk(w, x) && NoneFailed(w.market) && EntriesOk(w, x) && forall e | e in es :: Own(e)
    ensures NoneFailed(Through(w, es, x).market) && EntriesOk(Through(w, es, x), x)
    decreases |es|
  {
    hide WholeOk, After, NoneFailed, EntriesOk;
    if es != [] {
      AfterOk(w, es[0], x);
      NoneFailedKept(w, es[0], x);
      assert After(w, es[0], x).market == MarketAfter(w, es[0], x) by { AfterIs(w, es[0], x); }
      EntriesKept(w, es[0], x);
      OwnThrough(After(w, es[0], x), es[1..], x);
    }
  }

  lemma AfterIs(w: Whole, e: Event, x: Texts)
    ensures After(w, e, x).market == MarketAfter(w, e, x)
  {
  }

  lemma OwnFacts(w: Whole, x: Texts)
    requires ReachedByOwn(w, x)
    ensures ReachedUnbroken(w, x) && NoneFailed(w.market) && EntriesOk(w, x)
  {
    hide Through, WholeOk, NoneFailed, EntriesOk;
    var clock, es :| (forall e | e in es :: Own(e)) && Through(Initially(clock), es, x) == w;
    InitiallyOk(clock, x);
    assert NoneFailed(Initially(clock).market) && EntriesOk(Initially(clock), x) by { NothingAsked(clock, x); }
    OwnThrough(Initially(clock), es, x);
    assert Restart !in es;
  }

  lemma NothingAsked(clock: Time, x: Texts)
    ensures NoneFailed(Initially(clock).market) && EntriesOk(Initially(clock), x)
  {
  }

  /** The amounts of the first `n` operations of a kind. */
  ghost function Ordered(ops: seq<Operation>, kind: OpKind, n: nat): nat
    requires n <= |ops|
  {
    if n == 0 then 0 else Ordered(ops, kind, n - 1) + if ops[n - 1].kind == kind then ops[n - 1].amount else 0
  }

  /** Entries that are operations' of a kind amount to no more than these. */
  lemma {:induction false} AtMostOrdered(
    t: Table, b: Id, ops: seq<Operation>, kind: OpKind, n: nat, keys: set<string>, keyText: KeyText)
    requires n <= |ops| && Separates(keyText) && DifferentKeys(ops) && keys <= t.Keys
    requires keys <= TextsOf(b, ops, kind, n, false, keyText)
    requires forall i | 0 <= i < n && keyText(b, ops[i].key) in keys ::
               t[keyText(b, ops[i].key)].request.amount == ops[i].amount
    ensures Total(t, keys) <= Ordered(ops, kind, n)
    decreases n
  {
    hide Separates, DifferentKeys;
    if n > 0 {
      var text := keyText(b, ops[n - 1].key);
      OneMoreText(b, ops, kind, n - 1, false, keyText);
      AtMostOrdered(t, b, ops, kind, n - 1, keys - {text}, keyText);
      if text in keys { TotalWithout(t, keys, text); } else { assert keys - {text} == keys; }
    }
  }

  lemma {:induction false} OrderedSplit(ops: seq<Operation>, n: nat)
    requires n <= |ops|
    requires forall i | 0 <= i < |ops| :: ops[i].status != Failed &&
               (ops[i].status == Waiting ==> ops[i].kind == RefundOp || ops[i].kind == ReleaseOp)
    ensures Ordered(ops, RefundOp, n) + Ordered(ops, ReleaseOp, n) ==
            Credited(ops, RefundOp, n) + Credited(ops, ReleaseOp, n) + Outstanding(ops, n)
    decreases n
  {
    if n > 0 { OrderedSplit(ops, n - 1); }
  }

  lemma WaitingAreLegs(m: Market, b: Id, d: Deal)
    requires Row(m, b, d)
    ensures forall i | 0 <= i < |d.ops| && d.ops[i].status == Waiting ::
              d.ops[i].kind == RefundOp || d.ops[i].kind == ReleaseOp
  {
    hide Row, Inv;
    RowOk(m, b, d);
    forall i | 0 <= i < |d.ops| && d.ops[i].status == Waiting
      ensures d.ops[i].kind == RefundOp || d.ops[i].kind == ReleaseOp
    {
      WithinDeposit(d, i);
    }
  }

  lemma MovesAreOrdered(w: Whole, x: Texts, b: Id, kind: OpKind)
    requires EntriesOk(w, x) && Separates(x.keyText) && b in w.market.deals && (kind == RefundOp || kind == ReleaseOp)
    requires Answers(w.table, x.digest)
    ensures var ops := w.market.deals[b].ops;
            MovesOf(w.table, b, kind) <= TextsOf(b, ops, kind, |ops|, false, x.keyText) &&
            forall i | 0 <= i < |ops| && x.keyText(b, ops[i].key) in MovesOf(w.table, b, kind) ::
              DifferentKeys(ops) ==> w.table[x.keyText(b, ops[i].key)].request.amount == ops[i].amount
  {
    hide DifferentKeys;
    var ops := w.market.deals[b].ops;
    forall key | key in MovesOf(w.table, b, kind)
      ensures key in TextsOf(b, ops, kind, |ops|, false, x.keyText)
    {
      var r := w.table[key].request;
      assert EntryOk(w.market, r, x);
      var i :| 0 <= i < |ops| && Asks(ops[i], r, b, x.keyText);
    }
    forall i | 0 <= i < |ops| && x.keyText(b, ops[i].key) in MovesOf(w.table, b, kind) && DifferentKeys(ops)
      ensures w.table[x.keyText(b, ops[i].key)].request.amount == ops[i].amount
    {
      var r := w.table[x.keyText(b, ops[i].key)].request;
      assert EntryOk(w.market, r, x);
      var j :| 0 <= j < |ops| && Asks(ops[j], r, b, x.keyText);
      assert ops[j].key == ops[i].key;
      SameIndex(ops, i, j);
    }
  }

  lemma SameIndex(ops: seq<Operation>, i: nat, j: nat)
    requires DifferentKeys(ops) && i < |ops| && j < |ops| && ops[i].key == ops[j].key
    ensures i == j
  {
  }

  /**
   * With the provider's own answers only, what it has ever moved for a deposit, lost answers included, is never more
   * than the deposit; and once the deposit is RESOLVED it is exactly what the row says, refund by refund and
   * release by release.
   */
  lemma ProviderNeverOverpays(w: Whole, x: Texts, b: Id)
    requires ReachedByOwn(w, x) && Separates(x.keyText) && b in w.market.deals && w.market.deals[b].deposit.Some?
    ensures var dep := w.market.deals[b].deposit.value;
            var refunded, released := Total(w.table, MovesOf(w.table, b, RefundOp)),
                Total(w.table, MovesOf(w.table, b, ReleaseOp));
            refunded + released <= dep.amount && refunded >= dep.refunded && released >= dep.released &&
            (dep.status == Resolved ==> refunded == dep.refunded && released == dep.released)
  {
    hide ReachedByOwn, ReachedUnbroken, WholeOk, EntriesOk, Separates, DifferentKeys, Row, NoneFailed;
    OwnFacts(w, x);
    UnbrokenBooks(w, x);
    ReachedKeys(w, x, b);
    Facts(w, x);
    var d := w.market.deals[b];
    Conservation(w.market, b, d);
    DepositMoved(w, x, b);
    AtMost(w, x, b, RefundOp);
    AtMost(w, x, b, ReleaseOp);
    AtLeast(w, x, b, RefundOp);
    AtLeast(w, x, b, ReleaseOp);
    OrderedBound(w.market, b, d);
  }

  lemma AtMost(w: Whole, x: Texts, b: Id, kind: OpKind)
    requires EntriesOk(w, x) && Separates(x.keyText) && b in w.market.deals && (kind == RefundOp || kind == ReleaseOp)
    requires Answers(w.table, x.digest) && DifferentKeys(w.market.deals[b].ops)
    ensures Total(w.table, MovesOf(w.table, b, kind)) <=
            Ordered(w.market.deals[b].ops, kind, |w.market.deals[b].ops|)
  {
    hide EntriesOk, Separates, DifferentKeys, Answers;
    MovesAreOrdered(w, x, b, kind);
    var ops := w.market.deals[b].ops;
    AtMostOrdered(w.table, b, ops, kind, |ops|, MovesOf(w.table, b, kind), x.keyText);
  }

  /** Fewer entries amount to no more. */
  lemma {:induction false} TotalGrows(t: Table, some: set<string>, all: set<string>)
    requires some <= all <= t.Keys && forall key | key in all :: t[key].request.amount >= 0
    ensures Total(t, some) <= Total(t, all)
    decreases |all|
  {
    if some != all {
      var key :| key in all && key !in some;
      TotalWithout(t, all, key);
      TotalGrows(t, some, all - {key});
    }
  }

  lemma AtLeast(w: Whole, x: Texts, b: Id, kind: OpKind)
    requires EntriesOk(w, x) && b in w.market.deals && (kind == RefundOp || kind == ReleaseOp)
    requires var ops := w.market.deals[b].ops;
             TextsOf(b, ops, kind, |ops|, true, x.keyText) <= MovesOf(w.table, b, kind)
    ensures var ops := w.market.deals[b].ops;
            Total(w.table, TextsOf(b, ops, kind, |ops|, true, x.keyText)) <= Total(w.table, MovesOf(w.table, b, kind))
  {
    var ops := w.market.deals[b].ops;
    forall key | key in MovesOf(w.table, b, kind) ensures w.table[key].request.amount >= 0 {
      assert EntryOk(w.market, w.table[key].request, x);
    }
    TotalGrows(w.table, TextsOf(b, ops, kind, |ops|, true, x.keyText), MovesOf(w.table, b, kind));
  }

  lemma OrderedBound(m: Market, b: Id, d: Deal)
    requires Row(m, b, d) && d.deposit.Some? && NoneFailed(m)
    ensures var dep, n := d.deposit.value, |d.ops|;
            Ordered(d.ops, RefundOp, n) + Ordered(d.ops, ReleaseOp, n) <= dep.amount &&
            (dep.status == Resolved ==>
               Ordered(d.ops, RefundOp, n) + Ordered(d.ops, ReleaseOp, n) == dep.refunded + dep.released)
  {
    WaitingAreLegs(m, b, d);
    OrderedSplit(d.ops, |d.ops|);
    Conservation(m, b, d);
  }
}
