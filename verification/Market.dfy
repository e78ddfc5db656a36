/** All bookings together with the calendar and the leases workers took, and every command on them. */
module Market {
  import opened Domain
  import opened Deals
  import opened DealInvariant
  import opened Evolution
  import opened Price

  const MAX_ACTIVE_PENDING: nat := 5
  const MAX_COMPETING_PENDING: nat := 20
  const PENDING_TTL_MS: int := 12 * 60 * 60 * 1000

  datatype Period = Period(item: Id, start: int, end: int)

  /** One lease a worker was granted: it may report under it at any later time, or never. */
  datatype Claim = Claim(booking: Id, i: nat, token: Time, attempts: nat, now: Time)

  datatype Market = Market(deals: map<Id, Deal>, periods: map<Id, Period>, claims: seq<Claim>, clock: Time)

  datatype Policy = Policy(fake: bool, maximumMinor: nat, windowMs: nat)

  datatype Listing = Listing(owner: Id, pricePerDay: nat, deposit: nat)

  datatype Request = Request(borrower: Id, item: Id, request: string, payload: string, start: int, end: int)

  datatype Booked = New(deal: Deal) | Repeated(id: Id) | Refused(error: Error)

  predicate Overlap(aStart: int, aEnd: int, bStart: int, bEnd: int) {
    aStart <= bEnd && aEnd >= bStart
  }

  predicate Meets(d: Deal, item: Id, start: int, end: int) {
    d.item == item && Overlap(d.start, d.end, start, end)
  }

  /** The requests a borrower has waiting. */
  function ActivePending(m: Market, borrower: Id): set<Id> {
    set b | b in m.deals && m.deals[b].borrower == borrower && LivePending(m.deals[b], m.clock)
  }

  /** The live requests on an item that overlap a span of days. */
  function Competing(m: Market, item: Id, start: int, end: int): set<Id> {
    set b | b in m.deals && Meets(m.deals[b], item, start, end) && LivePending(m.deals[b], m.clock)
  }

  predicate CalendarTaken(m: Market, item: Id, start: int, end: int) {
    exists p | p in m.periods :: m.periods[p].item == item && Overlap(m.periods[p].start, m.periods[p].end, start, end)
  }

  predicate ReservedBy(m: Market, except: set<Id>, item: Id, start: int, end: int) {
    exists b | b in m.deals :: b !in except && Meets(m.deals[b], item, start, end) && Reserving(m.deals[b].status)
  }

  // ---------------------------------------------------------------- commands across bookings

  /** The terms `create` writes; `None` where it throws: no rental to charge, or kopecks beyond the safe integers. */
  function NewTerms(listing: Listing, policy: Policy, days: nat): Option<Terms> {
    var rental := listing.pricePerDay * days;
    if !policy.fake then if rental > MAX_SAFE then None else Some(Terms(false, rental, 0, None))
    else
      match SafeDealPrice(rental, listing.deposit)
      case None => None
      case Some(price) =>
        if price.total > MAX_SAFE then None
        else Some(Terms(true, price.total, price.deposit, if price.deposit > 0 then Some(policy.windowMs) else None))
  }

  function NewDeal(r: Request, listing: Listing, terms: Terms, now: Time): Deal {
    Deal(r.item, r.borrower, listing.owner, r.request, r.payload, r.start, r.end, terms,
         Pending, Some(now + PENDING_TTL_MS), None, None,
         if terms.windowMs.Some? then Some(Deposit(terms.depositMinor, Unpaid, None, 0, 0)) else None,
         [], None, map[], [Entry(Some(r.borrower), Create, None, Pending)])
  }

  /** `listing` is the approved item row, if any; `blocked` tells whether one side blocked the other. */
  ghost function BookTx(m: Market, r: Request, listing: Option<Listing>, policy: Policy, blocked: bool,
      today: int): (res: Booked)
    ensures res.Repeated? ==> res.id in m.deals
  {
    var days := ParsePeriod(r.start, r.end, today);
    if days.None? then Refused(BadRequest)
    else if RequestIn(m, r.borrower, r.request).Some? then
      var known := RequestIn(m, r.borrower, r.request).value;
      if m.deals[known].payload != r.payload then Refused(KeyReused) else Repeated(known)
    else if |ActivePending(m, r.borrower)| >= MAX_ACTIVE_PENDING then Refused(TooMany)
    else if listing.None? then Refused(NotFound)
    else if listing.value.owner == r.borrower then Refused(OwnItem)
    else if !policy.fake && listing.value.deposit != 0 then Refused(DepositNotSupported)
    else if policy.fake && listing.value.deposit > policy.maximumMinor then Refused(BadRequest)
    else if blocked then Refused(InteractionBlocked)
    else if CalendarTaken(m, r.item, r.start, r.end) then Refused(CalendarConflict)
    else if ReservedBy(m, {}, r.item, r.start, r.end) then Refused(BookingConflict)
    else if |Competing(m, r.item, r.start, r.end)| >= MAX_COMPETING_PENDING then Refused(TooMany)
    else
      match NewTerms(listing.value, policy, days.value)
      case None => Refused(BadRequest)
      case Some(terms) => New(NewDeal(r, listing.value, terms, m.clock))
  }

  /** The lookup by the unique pair of borrower and request id. */
  ghost function RequestIn(m: Market, borrower: Id, request: string): (r: Option<Id>)
    ensures r.Some? ==>
            r.value in m.deals && m.deals[r.value].borrower == borrower &&
            m.deals[r.value].request == request
    ensures r.None? <==> forall b | b in m.deals :: !(m.deals[b].borrower == borrower && m.deals[b].request == request)
  {
    if exists b :: b in m.deals && m.deals[b].borrower == borrower && m.deals[b].request == request
    then var b :| b in m.deals && m.deals[b].borrower == borrower && m.deals[b].request == request; Some(b)
    else None
  }

  function Competitors(m: Market, b: Id): set<Id>
    requires b in m.deals
  {
    Competing(m, m.deals[b].item, m.deals[b].start, m.deals[b].end) - {b}
  }

  /** What `confirm` answers; `None` is success. */
  function ConfirmRefusal(m: Market, b: Id, lender: Id): Option<Error> {
    if b !in m.deals || m.deals[b].lender != lender then Some(NotFound)
    else
      var d := m.deals[b];
      if !LivePending(d, m.clock) then Some(InvalidTransition)
      else if CalendarTaken(m, d.item, d.start, d.end) then Some(CalendarConflict)
      else if ReservedBy(m, {b}, d.item, d.start, d.end) then Some(BookingConflict)
      else None
  }

  function ConfirmedDeals(m: Market, b: Id, lender: Id): map<Id, Deal>
    requires b in m.deals
  {
    var losers := Competitors(m, b);
    map x | x in m.deals ::
      if x == b then Exec(m.deals[x], Select(lender))
      else if x in losers then Exec(m.deals[x], Drop(lender))
      else m.deals[x]
  }

  function BlockedDeals(m: Market, blocker: Id, blocked: Id): map<Id, Deal> {
    map x | x in m.deals ::
      var d := m.deals[x];
      if LivePending(d, m.clock) && ((d.borrower == blocker && d.lender == blocked) ||
          (d.borrower == blocked && d.lender == blocker))
      then Exec(d, Block(blocker)) else d
  }

  datatype Command =
    | Tick(to: Time)
    | Book(id: Id, r: Request, listing: Option<Listing>, policy: Policy, blocked: bool, today: int)
    | ConfirmBooking(b: Id, lender: Id)
    | BlockUser(blocker: Id, blockedUser: Id)
    | AddPeriod(id: Id, owned: bool, item: Id, start: int, end: int, today: int)
    | RemovePeriod(id: Id, owned: bool, item: Id)
    | On(b: Id, s: Step)
    | TakeLease(b: Id, i: nat, now: Time)
    | ReportOutcome(k: nat, outcome: ProviderResult)

  /** Steps that are not part of a command above. */
  predicate Single(s: Step) {
    !s.Select? && !s.Drop? && !s.Block? && !s.Lease? && !s.Report?
  }

  function With(m: Market, b: Id, d: Deal): Market {
    m.(deals := m.deals[b := d])
  }

  /** The unique column of the operations' provider ids. */
  ghost predicate OperationIdTaken(m: Market, id: string) {
    exists b, i | b in m.deals && 0 <= i < |m.deals[b].ops| :: m.deals[b].ops[i].providerId == Some(id)
  }

  /** The unique column of the payments' provider ids. */
  ghost predicate PaymentIdTaken(m: Market, id: string) {
    exists b | b in m.deals :: m.deals[b].payment.Some? && m.deals[b].payment.value.providerId == id
  }

  /** A checkout that would store an id some row has already: its transaction rolls back. */
  ghost predicate Collides(m: Market, d: Deal, checkout: ProviderCall, hold: ProviderCall) {
    d.payment.None? && checkout.Answer? && checkout.result.Success? &&
    (PaymentIdTaken(m, checkout.result.providerId) ||
     (d.deposit.Some? && hold.Answer? && hold.result.Success? && OperationIdTaken(m, hold.result.providerId)))
  }

  ghost predicate RollsBack(m: Market, b: Id, s: Step)
    requires b in m.deals
  {
    s.Pay? && Collides(m, m.deals[b], s.checkout, s.hold)
  }

  ghost function Next(m: Market, c: Command): Market {
    match c
    case Tick(to) => if to >= m.clock then m.(clock := to) else m
    case Book(id, r, listing, policy, blocked, today) =>
      var res := BookTx(m, r, listing, policy, blocked, today);
      if id !in m.deals && res.New? then With(m, id, res.deal) else m
    case ConfirmBooking(b, lender) =>
      if ConfirmRefusal(m, b, lender).None? then m.(deals := ConfirmedDeals(m, b, lender)) else m
    case BlockUser(blocker, blocked) =>
      if blocker != blocked then m.(deals := BlockedDeals(m, blocker, blocked)) else m
    case AddPeriod(id, owned, item, start, end, today) =>
      if id !in m.periods && owned && ParsePeriod(start, end, today).Some? &&
         !ReservedBy(m, {}, item, start, end) && !CalendarTaken(m, item, start, end)
      then m.(periods := m.periods[id := Period(item, start, end)]) else m
    case RemovePeriod(id, owned, item) =>
      if owned && id in m.periods && m.periods[id].item == item then m.(periods := m.periods - {id}) else m
    case On(b, s) =>
      if b in m.deals && Single(s) && !RollsBack(m, b, s) then With(m, b, Exec(m.deals[b], s)) else m
    case TakeLease(b, i, now) =>
      if b in m.deals && Claimable(m.deals[b], i, now)
      then With(m, b, Exec(m.deals[b], Lease(i, now))).(
             claims := m.claims + [Claim(b, i, now + LEASE_MS, m.deals[b].ops[i].attempts + 1, now)])
      else m
    case ReportOutcome(k, outcome) =>
      if k < |m.claims| && m.claims[k].booking in m.deals &&
         !(outcome.Success? && OperationIdTaken(m, outcome.providerId))
      then
        var c := m.claims[k];
        With(m, c.booking, Exec(m.deals[c.booking], Report(c.i, c.token, c.attempts, outcome, c.now)))
      else m
  }

  function Start(clock: Time): Market {
    Market(map[], map[], [], clock)
  }

  ghost function Run(m: Market, cs: seq<Command>): Market
    decreases |cs|
  {
    if cs == [] then m else Run(Next(m, cs[0]), cs[1..])
  }
}
