/** The services together with the provider they call: whose ids are stored, and when a unique column refuses one. */
module Backend {
  import opened Domain
  import opened Deals
  import opened DealInvariant
  import opened Evolution
  import opened Journal
  import opened Market
  import opened MarketInvariant
  import opened MarketRuns
  import opened Provider
  import opened Settlement
  import opened Text
  import opened Worker

  /** The tables, the provider's table, and the key under which each payment was charged. */
  datatype Whole = Whole(market: Market, table: Table, keys: map<Id, string>)

  /** What is fixed: the texts of operation keys, and the provider's digest. */
  datatype Texts = Texts(keyText: KeyText, digest: string -> string)

  datatype Event =
    /** Any command without a success of the provider. */
    | Plain(c: Command)
    | CheckOut(b: Id, payer: Id, fakePolicy: bool, key: string, wanted: Wanted, now: Time)
    /** The holder of lease `k` calls the provider and reports, with its answer or as a timeout. */
    | Work(k: nat, lost: bool)
    /** The provider's table lives in the memory of the process. */
    | Restart

  predicate Quiet(c: Command) {
    !(c.On? && c.s.Pay?) && !(c.ReportOutcome? && c.outcome.Success?)
  }

  function Answered(w: Whole, e: Event, x: Texts): Asked
    requires e.CheckOut? && e.b in w.market.deals
  {
    AskCheckout(w.table, e.b, w.market.deals[e.b], e.payer, e.fakePolicy, e.key, e.wanted, x.keyText, x.digest)
  }

  function PayOf(w: Whole, e: Event, x: Texts): Step
    requires e.CheckOut? && e.b in w.market.deals
  {
    var asked := Answered(w, e, x);
    Pay(e.payer, e.fakePolicy, Trim(e.key), asked.checkout, asked.hold, e.now)
  }

  predicate Leased(m: Market, k: nat) {
    k < |m.claims| && m.claims[k].booking in m.deals && m.claims[k].i < |m.deals[m.claims[k].booking].ops|
  }

  function Sent(m: Market, k: nat, x: Texts): ProviderRequest
    requires Leased(m, k)
  {
    RequestOf(m.claims[k].booking, m.deals[m.claims[k].booking].ops[m.claims[k].i], x.keyText)
  }

  function ReportOf(w: Whole, e: Event, x: Texts): Command
    requires e.Work? && Leased(w.market, e.k)
  {
    ReportOutcome(e.k, if e.lost then TimedOut else Heard(Reply(w.table, Sent(w.market, e.k, x), x.digest)))
  }

  /** The command of the booking model an event amounts to. */
  function AsCommand(w: Whole, e: Event, x: Texts): (c: Option<Command>)
  {
    match e
    case Plain(c) => if Quiet(c) then Some(c) else None
    case CheckOut(b, _, _, _, _, _) => if b in w.market.deals then Some(On(b, PayOf(w, e, x))) else None
    case Work(k, _) => if Leased(w.market, k) then Some(ReportOf(w, e, x)) else None
    case Restart => None
  }

  ghost function MarketAfter(w: Whole, e: Event, x: Texts): Market {
    match AsCommand(w, e, x)
    case Some(c) => Next(w.market, c)
    case None => w.market
  }

  function TableAfter(w: Whole, e: Event, x: Texts): Table {
    match e
    case Plain(_) => w.table
    case CheckOut(b, _, _, _, _, _) => if b in w.market.deals then Answered(w, e, x).table else w.table
    case Work(k, _) => if Leased(w.market, k) then Recorded(w.table, Sent(w.market, k, x), x.digest) else w.table
    case Restart => map[]
  }

  /** A checkout that stored its payment is remembered with its key. */
  ghost function KeysAfter(w: Whole, e: Event, x: Texts): map<Id, string> {
    if e.CheckOut? && e.b in w.market.deals && e.b in MarketAfter(w, e, x).deals &&
       w.market.deals[e.b].payment.None? && MarketAfter(w, e, x).deals[e.b].payment.Some?
    then w.keys[e.b := e.key] else w.keys
  }

  ghost function After(w: Whole, e: Event, x: Texts): Whole {
    Whole(MarketAfter(w, e, x), TableAfter(w, e, x), KeysAfter(w, e, x))
  }

  ghost function Through(w: Whole, es: seq<Event>, x: Texts): Whole
    decreases |es|
  {
    if es == [] then w else Through(After(w, es[0], x), es[1..], x)
  }

  function Initially(clock: Time): Whole {
    Whole(Start(clock), map[], map[])
  }

  // ---------------------------------------------------------------- what every event keeps

  /** The payments are known by their keys, and their ids are the provider's. */
  ghost predicate PaymentsOk(w: Whole, x: Texts) {
    && (forall b | b in w.keys :: b in w.market.deals && w.market.deals[b].payment.Some?)
    && (forall b | b in w.market.deals && w.market.deals[b].payment.Some? ::
          b in w.keys && PaidUnder(b, w.keys[b], w.market.deals[b].payment.value.providerId, x))
  }

  predicate PaidUnder(b: Id, key: string, id: string, x: Texts) {
    Success(id) == Fresh(Charge(key, b, 0, WantSuccess), x.digest)
  }

  ghost predicate WholeOk(w: Whole, x: Texts) {
    && Reachable(w.market) && FromProvider(w.market, x.keyText, x.digest)
    && Answers(w.table, x.digest) && PaymentsOk(w, x)
  }

  lemma ReplyIsFresh(t: Table, r: ProviderRequest, digest: string -> string)
    requires Answers(t, digest)
    ensures Reply(t, r, digest).Answer? ==> Reply(t, r, digest).result == Fresh(r, digest)
    ensures Answers(Recorded(t, r, digest), digest)
    ensures Reply(t, r, digest).Answer? ==>
              r.key in Recorded(t, r, digest) && Recorded(t, r, digest)[r.key].request == r
  {
    hide Fresh;
  }

  /** What the provider answers to a checkout. */
  lemma AskedIsFresh(w: Whole, e: Event, x: Texts)
    requires Answers(w.table, x.digest) && e.CheckOut? && e.b in w.market.deals
    ensures var d, asked := w.market.deals[e.b], Answered(w, e, x);
            Answers(asked.table, x.digest) &&
            (asked.checkout.Answer? ==> asked.checkout.result == Fresh(ChargeOf(e.b, d, e.key, e.wanted), x.digest)) &&
            (asked.hold.Answer? ==> asked.hold.result == Fresh(HoldOf(e.b, d, x.keyText), x.digest))
  {
    hide Answers, Reply, Recorded, Fresh;
    var d := w.market.deals[e.b];
    var q := ChargeOf(e.b, d, e.key, e.wanted);
    ReplyIsFresh(w.table, q, x.digest);
    ReplyIsFresh(Recorded(w.table, q, x.digest), HoldOf(e.b, d, x.keyText), x.digest);
  }

  lemma EventHonest(w: Whole, e: Event, x: Texts)
    requires Answers(w.table, x.digest) && AsCommand(w, e, x).Some?
    ensures Honest(w.market, AsCommand(w, e, x).value, x.keyText, x.digest)
    ensures Answers(TableAfter(w, e, x), x.digest)
  {
    hide Answers, Reply, Recorded, Fresh, AskCheckout;
    if e.CheckOut? { AskedIsFresh(w, e, x); }
    if e.Work? { ReplyIsFresh(w.table, Sent(w.market, e.k, x), x.digest); }
  }

  /** A payment appears only with a checkout, under the id the provider answered, and then stays. */
  lemma PaymentOrigin(d: Deal, s: Step)
    requires Inv(d)
    ensures d.payment.Some? ==> Exec(d, s).payment == d.payment
    ensures d.payment.None? && Exec(d, s).payment.Some? ==>
              s.Pay? && s.checkout == Answer(Success(Exec(d, s).payment.value.providerId))
  {
    hide Inv, FindKey, HasRetry, HasLeg, LegPaid, RetryDelay, CompleteTx;
    if s.Report? || s.SignAct? || s.Decide? || s.CloseWindow? || s.Finish? { OthersPayNothing(d, s); }
  }

  lemma OthersPayNothing(d: Deal, s: Step)
    requires Inv(d) && (s.Report? || s.SignAct? || s.Decide? || s.CloseWindow? || s.Finish?)
    ensures Exec(d, s).payment == d.payment
  {
    hide Inv, FindKey, HasLeg, LegPaid, RetryDelay;
  }

  lemma BookedUnpaid(m: Market, c: Command, b: Id)
    requires b !in m.deals && b in Next(m, c).deals
    ensures Next(m, c).deals[b].payment.None?
  {
    hide Exec, ConfirmRefusal, NewTerms;
  }

  lemma PaymentsKept(w: Whole, e: Event, x: Texts, b: Id)
    requires WholeOk(w, x) && b in After(w, e, x).market.deals
    ensures b in w.market.deals && w.market.deals[b].payment.Some? ==>
              After(w, e, x).market.deals[b].payment == w.market.deals[b].payment
    ensures !(b in w.market.deals && w.market.deals[b].payment.Some?) &&
            After(w, e, x).market.deals[b].payment.Some? ==>
              e.CheckOut? && e.b == b && b in w.market.deals &&
              PaidUnder(b, e.key, After(w, e, x).market.deals[b].payment.value.providerId, x)
  {
    hide Reachable, Inv, Exec, Next, FromProvider, PaymentsOk, Answers, Fresh, AskCheckout;
    if AsCommand(w, e, x).Some? {
      var c := AsCommand(w, e, x).value;
      if b !in w.market.deals { BookedUnpaid(w.market, c, b); }
      else {
        var s := StepTaken(w.market, c, b);
        RowOk(w.market, b, w.market.deals[b]);
        if s.Some? {
          PaymentOrigin(w.market.deals[b], s.value);
          if e.CheckOut? && e.b == b { AskedIsFresh(w, e, x); AmountsAside(b, w.market.deals[b], e.key, e.wanted, x); }
        }
      }
    }
  }

  /** The id depends on the key alone. */
  lemma AmountsAside(b: Id, d: Deal, key: string, wanted: Wanted, x: Texts)
    ensures var answer := Fresh(ChargeOf(b, d, key, wanted), x.digest);
            answer.Success? ==> answer == Fresh(Charge(key, b, 0, WantSuccess), x.digest)
  {
  }

  lemma AfterOk(w: Whole, e: Event, x: Texts)
    requires WholeOk(w, x)
    ensures WholeOk(After(w, e, x), x)
  {
    hide Reachable, FromProvider, Answers, Next, PaidUnder, Honest, AsCommand, TableAfter;
    var next := After(w, e, x);
    if AsCommand(w, e, x).Some? {
      EventHonest(w, e, x);
      HonestKeeps(w.market, AsCommand(w, e, x).value, x.keyText, x.digest);
      ReachableNext(w.market, AsCommand(w, e, x).value);
    } else {
      NoCommand(w, e, x);
    }
    forall b | b in next.market.deals && next.market.deals[b].payment.Some?
      ensures b in next.keys && PaidUnder(b, next.keys[b], next.market.deals[b].payment.value.providerId, x)
    {
      PaymentsKept(w, e, x, b);
    }
    forall b | b in next.keys ensures b in next.market.deals && next.market.deals[b].payment.Some? {
      if b in w.keys { DealsStay(w, e, x, b); PaymentsKept(w, e, x, b); }
    }
  }

  lemma NoCommand(w: Whole, e: Event, x: Texts)
    requires Answers(w.table, x.digest) && AsCommand(w, e, x).None?
    ensures Answers(TableAfter(w, e, x), x.digest)
  {
  }

  lemma DealsStay(w: Whole, e: Event, x: Texts, b: Id)
    requires b in w.market.deals
    ensures b in After(w, e, x).market.deals
  {
    hide Next, AsCommand;
    if AsCommand(w, e, x).Some? {
      var s := StepTaken(w.market, AsCommand(w, e, x).value, b);
    }
  }

  lemma {:induction false} ThroughOk(w: Whole, es: seq<Event>, x: Texts)
    requires WholeOk(w, x)
    ensures WholeOk(Through(w, es, x), x)
    decreases |es|
  {
    hide WholeOk, After;
    if es != [] {
      AfterOk(w, es[0], x);
      ThroughOk(After(w, es[0], x), es[1..], x);
    }
  }

  lemma InitiallyOk(clock: Time, x: Texts)
    ensures WholeOk(Initially(clock), x)
  {
    hide Reachable;
    RunsFromStart(clock);
  }

  ghost predicate Reached(w: Whole, x: Texts) {
    exists clock, es :: Through(Initially(clock), es, x) == w
  }

  lemma {:induction false} ThroughAppend(w: Whole, es: seq<Event>, e: Event, x: Texts)
    ensures Through(w, es + [e], x) == After(Through(w, es, x), e, x)
    decreases |es|
  {
    hide After;
    if es == [] {
      assert [] + [e] == [e];
      assert Through(After(w, e, x), [], x) == After(w, e, x);
    } else {
      assert (es + [e])[1..] == es[1..] + [e];
      ThroughAppend(After(w, es[0], x), es[1..], e, x);
    }
  }

  lemma ReachedNext(w: Whole, e: Event, x: Texts)
    requires Reached(w, x)
    ensures Reached(After(w, e, x), x)
  {
    hide After, Through;
    var clock, es :| Through(Initially(clock), es, x) == w;
    ThroughAppend(Initially(clock), es, e, x);
  }

  lemma ReachedFirst(clock: Time, x: Texts)
    ensures Reached(Initially(clock), x)
  {
    assert Through(Initially(clock), [], x) == Initially(clock);
  }

  // ---------------------------------------------------------------- the unique columns

  /** The id of a hold is new: no operation of any booking has it. */
  lemma HoldIdNew(w: Whole, b: Id, x: Texts, id: string)
    requires WholeOk(w, x) && Separates(x.keyText) && Injective(x.digest)
    requires b in w.market.deals && Success(id) == Fresh(HoldOf(b, w.market.deals[b], x.keyText), x.digest)
    requires w.market.deals[b].ops == []
    ensures !OperationIdTaken(w.market, id)
  {
    hide Reachable, Fresh, Answers, PaymentsOk;
    var m := w.market;
    forall c, j | c in m.deals && 0 <= j < |m.deals[c].ops| ensures m.deals[c].ops[j].providerId != Some(id) {
      if m.deals[c].ops[j].providerId.Some? {
        IdsDistinct(x.digest, HoldOf(b, m.deals[b], x.keyText), RequestOf(c, m.deals[c].ops[j], x.keyText));
      }
    }
  }

  /** Two payments have one id exactly when they were charged under one key. */
  lemma PaymentIdTakenIff(w: Whole, b: Id, key: string, x: Texts, id: string)
    requires WholeOk(w, x) && Injective(x.digest) && PaidUnder(b, key, id, x)
    ensures PaymentIdTaken(w.market, id) <==> exists c :: c in w.keys && w.keys[c] == key
  {
    hide Reachable, FromProvider, Answers;
    forall c | c in w.keys ensures w.market.deals[c].payment.value.providerId == id <==> w.keys[c] == key {
      SameIdIff(c, w.keys[c], w.market.deals[c].payment.value.providerId, b, key, id, x);
    }
    hide PaidUnder;
    if c :| c in w.keys && w.keys[c] == key { assert w.market.deals[c].payment.value.providerId == id; }
  }

  lemma SameIdIff(c: Id, key': string, id': string, b: Id, key: string, id: string, x: Texts)
    requires Injective(x.digest) && PaidUnder(c, key', id', x) && PaidUnder(b, key, id, x)
    ensures id' == id <==> key' == key
  {
    if key' != key { IdsDistinct(x.digest, Charge(key', c, 0, WantSuccess), Charge(key, b, 0, WantSuccess)); }
  }

  /**
   * With the provider's own answers a checkout is rolled back by a unique column exactly when it would store a
   * payment under a key another payment was charged under.
   */
  lemma CheckOutRollsBackIff(w: Whole, e: Event, x: Texts)
    requires Reached(w, x) && Separates(x.keyText) && Injective(x.digest) && e.CheckOut? && e.b in w.market.deals
    ensures var d, checkout := w.market.deals[e.b], Answered(w, e, x).checkout;
            RollsBack(w.market, e.b, PayOf(w, e, x)) <==>
              d.payment.None? && checkout.Answer? && checkout.result.Success? &&
              exists c :: c in w.keys && w.keys[c] == e.key
  {
    hide WholeOk, Reached, Fresh, Inv, AskCheckout, OperationIdTaken, PaymentIdTaken, Separates, Injective;
    ReachedOk(w, x);
    var d, asked := w.market.deals[e.b], Answered(w, e, x);
    Facts(w, x);
    AskedIsFresh(w, e, x);
    if d.payment.None? && asked.checkout.Answer? && asked.checkout.result.Success? {
      AmountsAside(e.b, d, e.key, e.wanted, x);
      PaymentIdTakenIff(w, e.b, e.key, x, asked.checkout.result.providerId);
      if asked.hold.Answer? && asked.hold.result.Success? {
        Unheld(w, e, x);
        HoldIdNew(w, e.b, x, asked.hold.result.providerId);
      }
    }
  }

  lemma ReachedOk(w: Whole, x: Texts)
    requires Reached(w, x)
    ensures WholeOk(w, x)
  {
    hide WholeOk, Through;
    var clock, es :| Through(Initially(clock), es, x) == w;
    InitiallyOk(clock, x);
    ThroughOk(Initially(clock), es, x);
  }

  lemma Facts(w: Whole, x: Texts)
    requires WholeOk(w, x)
    ensures Reachable(w.market) && Answers(w.table, x.digest)
  {
  }

  /** The provider is asked for a hold only while there is none. */
  lemma Unheld(w: Whole, e: Event, x: Texts)
    requires Reachable(w.market) && e.CheckOut? && e.b in w.market.deals && Answered(w, e, x).hold.Answer?
    ensures w.market.deals[e.b].ops == []
  {
    hide Reachable, StatusOk, ActsOk, HistoryOk, TermsOk, Reply, Recorded;
    RowOk(w.market, e.b, w.market.deals[e.b]);
  }

  // ---------------------------------------------------------------- without a restart

  /** The provider remembers the charge of every payment. */
  ghost predicate Remembers(w: Whole) {
    forall b | b in w.keys :: w.keys[b] in w.table && w.table[w.keys[b]].request.Charge? &&
      w.table[w.keys[b]].request.booking == b
  }

  lemma TableKept(w: Whole, e: Event, x: Texts, key: string)
    requires !e.Restart? && key in w.table
    ensures key in TableAfter(w, e, x) && TableAfter(w, e, x)[key] == w.table[key]
  {
    hide Reply, Fresh, AsksHold;
  }

  lemma ChargeRecorded(w: Whole, e: Event, x: Texts)
    requires Answers(w.table, x.digest) && e.CheckOut? && e.b in w.market.deals && Answered(w, e, x).checkout.Answer?
    ensures e.key in TableAfter(w, e, x)
    ensures TableAfter(w, e, x)[e.key].request == ChargeOf(e.b, w.market.deals[e.b], e.key, e.wanted)
  {
    hide Fresh, AsksHold;
  }

  lemma RemembersKept(w: Whole, e: Event, x: Texts)
    requires WholeOk(w, x) && Remembers(w) && !e.Restart?
    ensures Remembers(After(w, e, x))
  {
    hide WholeOk, Inv, Next, Reachable, Answers, TableAfter, AskCheckout;
    var next := After(w, e, x);
    Facts(w, x);
    forall b | b in next.keys
      ensures next.keys[b] in next.table && next.table[next.keys[b]].request.Charge? &&
              next.table[next.keys[b]].request.booking == b
    {
      if b in w.keys && next.keys[b] == w.keys[b] { TableKept(w, e, x, w.keys[b]); }
      else {
        PaysAnswered(w, e, x);
        ChargeRecorded(w, e, x);
      }
    }
  }

  lemma PaysAnswered(w: Whole, e: Event, x: Texts)
    requires Reachable(w.market) && e.CheckOut? && e.b in w.market.deals && w.market.deals[e.b].payment.None?
    requires e.b in MarketAfter(w, e, x).deals && MarketAfter(w, e, x).deals[e.b].payment.Some?
    ensures Answered(w, e, x).checkout.Answer?
  {
    hide Inv, Next, Exec, Reachable, AskCheckout;
    var s := StepTaken(w.market, AsCommand(w, e, x).value, e.b);
    RowOk(w.market, e.b, w.market.deals[e.b]);
    if s.Some? { PaymentOrigin(w.market.deals[e.b], s.value); }
  }

  lemma {:induction false} RemembersThrough(w: Whole, es: seq<Event>, x: Texts)
    requires WholeOk(w, x) && Remembers(w) && Restart !in es
    ensures WholeOk(Through(w, es, x), x) && Remembers(Through(w, es, x))
    decreases |es|
  {
    hide WholeOk, After, Remembers;
    if es != [] {
      AfterOk(w, es[0], x);
      RemembersKept(w, es[0], x);
      RemembersThrough(After(w, es[0], x), es[1..], x);
    }
  }

  /** Reached by a run in which the provider keeps its table. */
  ghost predicate ReachedUnbroken(w: Whole, x: Texts) {
    exists clock, es :: Restart !in es && Through(Initially(clock), es, x) == w
  }

  lemma UnbrokenRemembers(w: Whole, x: Texts)
    requires ReachedUnbroken(w, x)
    ensures Reached(w, x) && WholeOk(w, x) && Remembers(w)
  {
    hide WholeOk, Through, Remembers;
    var clock, es :| Restart !in es && Through(Initially(clock), es, x) == w;
    InitiallyOk(clock, x);
    NothingPaid(clock);
    RemembersThrough(Initially(clock), es, x);
  }

  /** As long as the provider is not restarted no checkout of any run is rolled back. */
  lemma CheckOutNeverRollsBack(w: Whole, e: Event, x: Texts)
    requires ReachedUnbroken(w, x) && Separates(x.keyText) && Injective(x.digest)
    requires e.CheckOut? && e.b in w.market.deals
    ensures !RollsBack(w.market, e.b, PayOf(w, e, x))
  {
    hide WholeOk, Reached, ReachedUnbroken, RollsBack, Fresh, Remembers;
    UnbrokenRemembers(w, x);
    CheckOutRollsBackIff(w, e, x);
    if w.market.deals[e.b].payment.None? && Answered(w, e, x).checkout.Answer? { KeyRefused(w, e, x); }
  }

  lemma NothingPaid(clock: Time)
    ensures Remembers(Initially(clock))
  {
  }

  /** A key another booking was charged under is refused by the provider. */
  lemma KeyRefused(w: Whole, e: Event, x: Texts)
    requires WholeOk(w, x) && Remembers(w) && e.CheckOut? && e.b in w.market.deals
    requires w.market.deals[e.b].payment.None? && Answered(w, e, x).checkout.Answer?
    ensures !exists c :: c in w.keys && w.keys[c] == e.key
  {
    hide Reachable, FromProvider, Answers, PaidUnder, Fresh, Recorded, AskHold;
  }

  /** And no worker's success is, restarts or not, while its operation waits. */
  lemma WorkNeverRollsBack(w: Whole, k: nat, x: Texts)
    requires Reached(w, x) && Separates(x.keyText) && Injective(x.digest)
    requires Leased(w.market, k)
    requires w.market.deals[w.market.claims[k].booking].ops[w.market.claims[k].i].status == Waiting
    ensures var report := ReportOf(w, Work(k, false), x);
            report.outcome.Success? ==> !OperationIdTaken(w.market, report.outcome.providerId)
  {
    hide Reached, WholeOk, Inv, Fresh, Separates, Injective, Reply, Recorded, OperationIdTaken;
    ReachedOk(w, x);
    Facts(w, x);
    Sourced(w, x);
    ReplyIsFresh(w.table, Sent(w.market, k, x), x.digest);
    var report := ReportOf(w, Work(k, false), x);
    if report.outcome.Success? {
      WaitingIdNew(w.market, w.market.claims[k].booking, w.market.claims[k].i, report.outcome.providerId, x.keyText,
        x.digest);
    }
  }

  lemma Sourced(w: Whole, x: Texts)
    requires WholeOk(w, x)
    ensures FromProvider(w.market, x.keyText, x.digest)
  {
  }
}
