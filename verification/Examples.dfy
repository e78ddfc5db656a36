/** Runs that show where a plausible promise fails. */
module Examples {
  import opened Domain
  import opened Deals
  import opened DealInvariant
  import opened Evolution
  import opened Price
  import opened Market
  import opened MarketRuns
  import opened Provider
  import opened Settlement
  import Backend

  const SHOP := Listing(2, 1000, 500)
  const RULES := Policy(true, 100000, 86400000)
  const WISH := Request(1, 7, "wish", "body", 0, 0)

  /** A confirmed booking with its deposit held. */
  function HeldDeal(): Deal {
    Deal(7, 1, 2, "wish", "body", 0, 0, Terms(true, 1500, 500, Some(86400000)), Confirmed, None, None,
         Some(Payment(1, 1500, PaymentSucceeded, "paid")), Some(Deposit(500, Held, None, 0, 0)),
         [HeldOperation(500, "held", 0)], None, map[],
         [Entry(Some(1), Create, None, Pending), Entry(Some(2), Confirm, Some(Pending), Confirmed)])
  }

  function BookedDeal(): Deal {
    NewDeal(WISH, SHOP, Terms(true, 1500, 500, Some(86400000)), 0)
  }

  lemma FirstBooking()
    ensures BookTx(Start(0), WISH, Some(SHOP), RULES, false, 0) ==
              New(BookedDeal())
  {
    assert ActivePending(Start(0), 1) == {} && Competing(Start(0), 7, 0, 0) == {};
  }

  function Only(d: Deal, claims: seq<Claim>): Market {
    Market(map[0 := d], map[], claims, 0)
  }

  lemma Take(d: Deal, claims: seq<Claim>, s: Step)
    requires Reachable(Only(d, claims)) && Single(s) && !RollsBack(Only(d, claims), 0, s)
    ensures Reachable(Only(Exec(d, s), claims))
  {
    hide Reachable, Run, Exec;
    ReachableNext(Only(d, claims), On(0, s));
    assert Next(Only(d, claims), On(0, s)) == Only(Exec(d, s), claims);
  }

  lemma ChosenRun()
    ensures Reachable(Only(Chosen(BookedDeal(), 2), []))
  {
    hide Reachable, Run;
    FirstBooking();
    Started();
    ReachableNext(Start(0), Book(0, WISH, Some(SHOP), RULES, false, 0));
    assert Next(Start(0), Book(0, WISH, Some(SHOP), RULES, false, 0)) == Only(BookedDeal(), []);
    ReachableNext(Only(BookedDeal(), []), ConfirmBooking(0, 2));
    assert Next(Only(BookedDeal(), []), ConfirmBooking(0, 2)) == Only(Chosen(BookedDeal(), 2), []);
  }

  /** Booking, confirming and paying reach the held deal. */
  lemma HeldRun()
    ensures Reachable(Only(HeldDeal(), []))
  {
    hide Reachable, Run;
    ChosenRun();
    var d := BookedDeal();
    var pay := Pay(1, true, "k", Answer(Success("paid")), Answer(Success("held")), 0);
    Take(Chosen(d, 2), [], pay);
    assert Exec(Chosen(d, 2), pay) == HeldDeal();
  }

  lemma Started()
    ensures Reachable(Start(0))
  {
    assert Run(Start(0), []) == Start(0);
  }

  function CancelledDeal(): Deal {
    WithDeposit(Log(HeldDeal(), Some(1), Cancel, Cancelled).(reason := Some(BorrowerCancelled), expiresAt := None),
        Resolving).(
      ops := HeldDeal().ops + [NewOperation(RefundOp, 500, PreHandoverRefund, None, 0)])
  }

  /** Cancelling the paid booking schedules a refund; once the provider declines it, nothing can repeat it. */
  lemma StuckRun() returns (m: Market)
    ensures Reachable(m) && 0 in m.deals && m.deals[0].status == Cancelled && DepositIs(m.deals[0], {Resolving})
    ensures m.deals[0].deposit.value.refunded == 0 && !CanProceed(m.deals[0], true)
  {
    hide Reachable, Run, CompleteTx;
    HeldRun();
    Take(HeldDeal(), [], CancelBy(1, true, 0));
    var d := CancelledDeal();
    assert Exec(HeldDeal(), CancelBy(1, true, 0)) == d;
    ReachableNext(Only(d, []), TakeLease(0, 1, 0));
    var leased := d.(ops := d.ops[1 := d.ops[1].(processingUntil := Some(LEASE_MS), attempts := 1)]);
    var claims := [Claim(0, 1, LEASE_MS, 1, 0)];
    assert Next(Only(d, []), TakeLease(0, 1, 0)) == Only(leased, claims);
    ReachableNext(Only(leased, claims), ReportOutcome(0, Declined("no")));
    var failed := leased.(ops := leased.ops[1 := leased.ops[1].(status := Failed, processingUntil := None)]);
    m := Only(failed, claims);
    assert Next(Only(leased, claims), ReportOutcome(0, Declined("no"))) == m;
  }

  /** The held booking after both acts were signed. */
  function ReturnedDeal(): Deal {
    var handedOver := Log(HeldDeal(), Some(1), ConfirmHandover, Active);
    Log(handedOver, Some(2), ConfirmReturn, Returned).(
      acts := map[Handover := Act(2, 1, Some(1)), Return := Act(1, 2, Some(2))],
      deposit := Some(Deposit(500, Held, Some(86400000), 0, 0)))
  }

  lemma HandoverRun()
    ensures Reachable(Only(
              Log(HeldDeal(), Some(1), ConfirmHandover, Active).(acts := map[Handover := Act(2, 1, Some(1))]), []))
  {
    hide Reachable, Run;
    HeldRun();
    Take(HeldDeal(), [], MakeAct(2, Handover, 1, true, true, true));
    var made := HeldDeal().(acts := map[Handover := Act(2, 1, None)]);
    assert Exec(HeldDeal(), MakeAct(2, Handover, 1, true, true, true)) == made;
    Take(made, [], SignAct(1, Handover, 0));
    assert Exec(made, SignAct(1, Handover, 0)).acts == map[Handover := Act(2, 1, Some(1))];
  }

  lemma ReturnedRun()
    ensures Reachable(Only(ReturnedDeal(), []))
  {
    hide Reachable, Run;
    HandoverRun();
    var out := Log(HeldDeal(), Some(1), ConfirmHandover, Active).(acts := map[Handover := Act(2, 1, Some(1))]);
    Take(out, [], MakeAct(1, Return, 2, false, true, true));
    var made := out.(acts := out.acts[Return := Act(1, 2, None)]);
    assert Exec(out, MakeAct(1, Return, 2, false, true, true)) == made;
    Take(made, [], SignAct(2, Return, 0));
    assert Exec(made, SignAct(2, Return, 0)) == ReturnedDeal();
  }

  /** A booking is COMPLETED when its settlement is scheduled: the deposit may still be RESOLVING. */
  lemma CompletedUnsettledRun() returns (m: Market)
    ensures Reachable(m) && 0 in m.deals && m.deals[0].status == Completed && DepositIs(m.deals[0], {Resolving})
  {
    hide Reachable, Run;
    ReturnedRun();
    Take(ReturnedDeal(), [], CloseWindow(86400000));
    m := Only(Exec(ReturnedDeal(), CloseWindow(86400000)), []);
    assert FindKey(ReturnedDeal().ops[..0], AutoRefund).None?;
  }

  // ---------------------------------------------------------------- a repeated payment id

  const CHEAP := Listing(2, 1000, 0)
  const OTHER_WISH := Request(3, 8, "other", "body", 0, 0)
  const NO_DEPOSIT := Terms(true, 1000, 0, None)

  function Wished(r: Request): Deal {
    NewDeal(r, CHEAP, NO_DEPOSIT, 0)
  }

  /** The bookings 0 and 1 of two borrowers and two items, one deal each. */
  function Two(d: Deal, e: Deal): Market {
    Market(map[0 := d, 1 := e], map[], [], 0)
  }

  lemma TwoBooked()
    ensures Next(Start(0), Book(0, WISH, Some(CHEAP), RULES, false, 0)) == Only(Wished(WISH), [])
    ensures Next(Only(Wished(WISH), []), Book(1, OTHER_WISH, Some(CHEAP), RULES, false, 0)) ==
            Two(Wished(WISH), Wished(OTHER_WISH))
  {
    assert NewTerms(CHEAP, RULES, 1) == Some(NO_DEPOSIT);
    assert ActivePending(Start(0), 1) == {} && Competing(Start(0), 7, 0, 0) == {};
    var m := Only(Wished(WISH), []);
    assert ActivePending(m, 3) == {} && Competing(m, 8, 0, 0) == {};
    assert m.deals[0 := Wished(WISH)][1 := Wished(OTHER_WISH)] == map[0 := Wished(WISH), 1 := Wished(OTHER_WISH)];
  }

  lemma TwoChosen()
    ensures Next(Two(Wished(WISH), Wished(OTHER_WISH)), ConfirmBooking(0, 2)) ==
            Two(Chosen(Wished(WISH), 2), Wished(OTHER_WISH))
    ensures Next(Two(Chosen(Wished(WISH), 2), Wished(OTHER_WISH)), ConfirmBooking(1, 2)) ==
            Two(Chosen(Wished(WISH), 2), Chosen(Wished(OTHER_WISH), 2))
  {
  }

  /**
   * The provider forgets its table when the process restarts: a second borrower who pays another booking under
   * the key of the first one is answered with the id of the first payment, and the checkout is rolled back.
   */
  lemma RepeatedIdRun(x: Backend.Texts) returns (w: Backend.Whole, e: Backend.Event)
    ensures Backend.Reached(w, x) && e.CheckOut? && e.b in w.market.deals && w.market.deals[e.b].payment.None?
    ensures Backend.Answered(w, e, x).checkout.Answer? && Backend.Answered(w, e, x).checkout.result.Success?
    ensures RollsBack(w.market, e.b, Backend.PayOf(w, e, x)) && Backend.After(w, e, x).market == w.market
  {
    hide Backend.Reached, Next;
    TwoBooked();
    TwoChosen();
    var first, second := Chosen(Wished(WISH), 2), Chosen(Wished(OTHER_WISH), 2);
    Backend.ReachedFirst(0, x);
    Plainly(Start(0), Book(0, WISH, Some(CHEAP), RULES, false, 0), x);
    Plainly(Only(Wished(WISH), []), Book(1, OTHER_WISH, Some(CHEAP), RULES, false, 0), x);
    Plainly(Two(Wished(WISH), Wished(OTHER_WISH)), ConfirmBooking(0, 2), x);
    Plainly(Two(first, Wished(OTHER_WISH)), ConfirmBooking(1, 2), x);
    var id := FirstPaid(first, second, x);
    w := Backend.Whole(Two(Bought(first, 1, id), second), map[], map[0 := "k"]);
    e := Backend.CheckOut(1, 3, true, "k", WantSuccess, 0);
    SecondPays(first, second, x, id, w, e);
  }

  function Bought(d: Deal, payer: Id, id: string): Deal {
    d.(payment := Some(Payment(payer, 1000, PaymentSucceeded, id)))
  }

  lemma Plainly(m: Market, c: Command, x: Backend.Texts)
    requires Backend.Reached(Backend.Whole(m, map[], map[]), x) && Backend.Quiet(c)
    ensures Backend.Reached(Backend.Whole(Next(m, c), map[], map[]), x)
  {
    hide Backend.Reached, Next;
    Backend.ReachedNext(Backend.Whole(m, map[], map[]), Backend.Plain(c), x);
  }

  lemma FirstPaid(first: Deal, second: Deal, x: Backend.Texts) returns (id: string)
    requires first == Chosen(Wished(WISH), 2) && second == Chosen(Wished(OTHER_WISH), 2)
    requires Backend.Reached(Backend.Whole(Two(first, second), map[], map[]), x)
    ensures Success(id) == Fresh(Charge("k", 0, 1000, WantSuccess), x.digest)
    ensures Backend.Reached(Backend.Whole(Two(Bought(first, 1, id), second), map[], map[0 := "k"]), x)
  {
    hide Backend.Reached, Next;
    var w := Backend.Whole(Two(first, second), map[], map[]);
    var e := Backend.CheckOut(0, 1, true, "k", WantSuccess, 0);
    var q := Charge("k", 0, 1000, WantSuccess);
    id := Fresh(q, x.digest).providerId;
    var paid := Two(Bought(first, 1, id), second);
    assert Backend.Answered(w, e, x) == Asked(Answer(Success(id)), Thrown, map["k" := Stored(q, Success(id))]);
    PayOnce(first, second, id);
    assert Backend.After(w, e, x) == Backend.Whole(paid, map["k" := Stored(q, Success(id))], map[0 := "k"]);
    Backend.ReachedNext(w, e, x);
    Backend.ReachedNext(Backend.After(w, e, x), Backend.Restart, x);
  }

  lemma PayOnce(first: Deal, second: Deal, id: string)
    requires first == Chosen(Wished(WISH), 2) && second == Chosen(Wished(OTHER_WISH), 2)
    ensures Next(Two(first, second), On(0, Pay(1, true, "k", Answer(Success(id)), Thrown, 0))) ==
            Two(Bought(first, 1, id), second)
  {
    assert !Collides(Two(first, second), first, Answer(Success(id)), Thrown);
  }

  lemma SecondPays(first: Deal, second: Deal, x: Backend.Texts, id: string, w: Backend.Whole, e: Backend.Event)
    requires first == Chosen(Wished(WISH), 2) && second == Chosen(Wished(OTHER_WISH), 2)
    requires Success(id) == Fresh(Charge("k", 0, 1000, WantSuccess), x.digest)
    requires w == Backend.Whole(Two(Bought(first, 1, id), second), map[], map[0 := "k"])
    requires e == Backend.CheckOut(1, 3, true, "k", WantSuccess, 0)
    ensures Backend.Answered(w, e, x).checkout == Answer(Success(id))
    ensures RollsBack(w.market, 1, Backend.PayOf(w, e, x)) && Backend.After(w, e, x).market == w.market
  {
    assert Fresh(Charge("k", 1, 1000, WantSuccess), x.digest) == Success(id);
    assert w.market.deals[0].payment.value.providerId == id;
    assert PaymentIdTaken(w.market, id);
  }
}
