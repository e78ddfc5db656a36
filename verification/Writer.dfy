/** How `create` fills the terms snapshot, and that every service reads back what it wrote. */
module TermsWriter {
  import opened Domain
  import opened Price
  import opened Text
  import opened TermsSnapshot
  import opened Legal
  import Deals
  import Market

  datatype Item = Item(
    title: string, ownerId: string, ownerName: Option<string>, pricePerDay: real, deposit: Option<real>,
    area: string, address: string, latitude: real, longitude: real, rulesVersion: Option<string>, updatedAt: string)

  datatype MarketPolicy = MarketPolicy(fake: bool, maximumMinor: nat, policyVersion: string, seconds: nat)

  /** What the policy service refuses to start without. */
  predicate PolicyOk(p: MarketPolicy) {
    p.fake ==> NonBlank(p.policyVersion) && 0 < p.seconds <= MAX_SAFE
  }

  /** Both document versions passed the legal gate. */
  predicate LegalOk(v: Versions) {
    IsApproved(v.offer) && IsApproved(v.cancellation)
  }

  predicate AreKopecks(roubles: real, n: int) {
    n as real == roubles * 100.0
  }

  /** `decimalToMinor`; `None` where it throws. */
  function Kopecks(roubles: real): (k: Option<int>)
    ensures k.Some? ==> AreKopecks(roubles, k.value)
    ensures k.None? ==> forall n: int :: !AreKopecks(roubles, n)
  {
    if (roubles * 100.0).Floor as real == roubles * 100.0 then Some((roubles * 100.0).Floor) else None
  }

  /** `minorToDecimal`. */
  function Roubles(minor: nat): (x: real)
    ensures x * 100.0 == minor as real && Amounts(x, minor)
  {
    minor as real / 100.0
  }

  function DepositKopecks(item: Item): Option<int> {
    if item.deposit.None? then Some(0) else Kopecks(item.deposit.value)
  }

  /** The price of the scenario in force; offline nothing but the rental is charged. */
  function PriceOf(p: MarketPolicy, rental: nat, deposit: nat): Option<DealPrice> {
    if p.fake then SafeDealPrice(rental, deposit) else Some(DealPrice(rental, deposit, rental, 0, rental))
  }

  /** `None` where `create` throws on the item's prices. */
  function Write(item: Item, borrower: string, now: string, days: nat, p: MarketPolicy,
      legal: Versions): Option<Snapshot>
    requires item.pricePerDay >= 0.0
  {
    var deposit, pricePerDay := DepositKopecks(item), Kopecks(item.pricePerDay);
    if deposit.None? || pricePerDay.None? || deposit.value < 0 then None
    else if (!p.fake && deposit.value != 0) || (p.fake && deposit.value > p.maximumMinor) then None
    else
      var price := PriceOf(p, pricePerDay.value * days, deposit.value);
      if price.None? || pricePerDay.value > MAX_SAFE || price.value.rental > MAX_SAFE || deposit.value > MAX_SAFE ||
         price.value.fee > MAX_SAFE || price.value.payout > MAX_SAFE || price.value.total > MAX_SAFE
      then None
      else
        Some(Snapshot(
          item.title, item.ownerId, item.ownerName, item.pricePerDay, days, Roubles(price.value.rental), item.deposit,
          Roubles(price.value.fee), Roubles(price.value.payout), Roubles(price.value.total), !p.fake,
          Money(pricePerDay.value, price.value.rental, deposit.value, price.value.fee, price.value.payout,
              price.value.total),
          if p.fake && deposit.value > 0 then Some(Window(p.policyVersion, p.seconds)) else None,
          Place(item.area, item.address, item.latitude, item.longitude),
          (if item.rulesVersion.Some? then item.rulesVersion.value else "legacy") + ":" + item.updatedAt,
          Some(legal.offer), Some(legal.cancellation),
          Some(TermsSnapshot.Consent(borrower, now, legal.offer, legal.cancellation))))
  }

  /** The item has the texts and coordinates its form asks for. */
  predicate Readable(item: Item, borrower: string) {
    NonBlank(item.title) && NonBlank(item.ownerId) && NonBlank(item.area) && NonBlank(item.address) &&
        NonBlank(borrower) &&
    -90.0 <= item.latitude <= 90.0 && -180.0 <= item.longitude <= 180.0
  }

  lemma WrittenLedger(item: Item, borrower: string, now: string, days: nat, p: MarketPolicy, legal: Versions)
    requires item.pricePerDay >= 0.0 && Write(item, borrower, now, days, p, legal).Some?
    ensures var s := Write(item, borrower, now, days, p, legal).value;
            Ledger(s.money, s.days, s.offline, s.depositTerms.Some?) && DecimalsAgree(s) && s.money.total <= MAX_SAFE
  {
  }

  /** The item's deposit in kopecks; an item without one has a deposit of zero. */
  predicate IsDeposit(item: Item, n: int) {
    if item.deposit.None? then n == 0 else AreKopecks(item.deposit.value, n)
  }

  /**
   * `create` writes a snapshot exactly when price and deposit are whole kopecks, the deposit is one the policy takes,
   * with the fake payment there is some rental to charge, and the total is an amount JavaScript holds exactly. What
   * it writes comes from the item, the policy, the request and the documents in force.
   */
  lemma WriteIff(item: Item, borrower: string, now: string, days: nat, p: MarketPolicy, legal: Versions, price: nat,
      deposit: int)
    requires item.pricePerDay >= 0.0 && days >= 1
    requires AreKopecks(item.pricePerDay, price) && IsDeposit(item, deposit)
    ensures Write(item, borrower, now, days, p, legal).Some? <==>
              0 <= deposit && price * days + deposit <= MAX_SAFE &&
              if p.fake then deposit <= p.maximumMinor && price * days > 0 else deposit == 0
    ensures Write(item, borrower, now, days, p, legal).Some? ==>
              var s := Write(item, borrower, now, days, p, legal).value;
              s.money.pricePerDay == price && s.money.rentalSubtotal == price * days && s.money.deposit == deposit &&
              s.money.total == price * days + deposit && s.offline == !p.fake && s.days == days &&
              s.itemTitle == item.title && s.lenderId == item.ownerId && s.lenderDisplayName == item.ownerName &&
              s.handover == Place(item.area, item.address, item.latitude, item.longitude) &&
              s.depositTerms == (if deposit > 0 then Some(Window(p.policyVersion, p.seconds)) else None) &&
              s.offerVersion == Some(legal.offer) && s.cancellationVersion == Some(legal.cancellation) &&
              s.acceptance == Some(TermsSnapshot.Consent(borrower, now, legal.offer, legal.cancellation))
  {
    KopecksOne(item.pricePerDay, price);
    if item.deposit.Some? { KopecksOne(item.deposit.value, deposit); }
    assert price <= price * days;
    hide Kopecks, AreKopecks, Roubles;
  }

  /** A price or deposit with a fraction of a kopeck is refused. */
  lemma WriteFractions(item: Item, borrower: string, now: string, days: nat, p: MarketPolicy, legal: Versions)
    requires item.pricePerDay >= 0.0
    requires (forall n: int :: !AreKopecks(item.pricePerDay, n)) || (forall n: int :: !IsDeposit(item, n))
    ensures Write(item, borrower, now, days, p, legal).None?
  {
    hide PriceOf, Roubles;
    if item.deposit.None? { assert IsDeposit(item, 0); }
    if Kopecks(item.pricePerDay).Some? { assert AreKopecks(item.pricePerDay, Kopecks(item.pricePerDay).value); }
    if item.deposit.Some? && Kopecks(item.deposit.value).Some? {
      assert IsDeposit(item, Kopecks(item.deposit.value).value);
    }
  }

  lemma KopecksOne(roubles: real, n: int)
    requires AreKopecks(roubles, n)
    ensures Kopecks(roubles) == Some(n)
  {
  }

  lemma ListingVersionFilled(rules: string, updatedAt: string)
    ensures NonBlank(rules + ":" + updatedAt)
  {
    TrimKeeps(rules + ":" + updatedAt, |rules|);
  }

  /**
   * A written snapshot is read back, equal and bound to its booking, by every service in both scenarios,
   * exactly when the item has its texts and coordinates.
   */
  lemma WrittenReadBack(item: Item, borrower: string, now: string, days: nat, p: MarketPolicy, legal: Versions,
      iso: IsoCheck)
    requires item.pricePerDay >= 0.0 && Write(item, borrower, now, days, p, legal).Some?
    requires days >= 1 && PolicyOk(p) && LegalOk(legal) && iso(now)
    ensures var s := Write(item, borrower, now, days, p, legal).value;
            ReadBound(Print(s), Binding(borrower, item.ownerId, days, s.total), iso) == Some(s) <==>
                Readable(item, borrower)
  {
    ApprovedIsFilled(legal.offer);
    ApprovedIsFilled(legal.cancellation);
    assert NonBlank(legal.offer) && NonBlank(legal.cancellation);
    hide LegalOk, IsApproved, NonBlank, Ledger, DecimalsAgree, Read, Print, Write, ConsentOk, TextsOk, MinorUnits;
    var s := Write(item, borrower, now, days, p, legal).value;
    WrittenLedger(item, borrower, now, days, p, legal);
    WrittenTexts(item, borrower, now, days, p, legal, iso);
    PrintReadIff(s, iso);
    TotalBound(s);
    if Read(Print(s), iso).Some? && ReadBound(Print(s), Binding(borrower, item.ownerId, days, s.total), iso) ==
        Some(s) {
      assert Read(Print(s), iso) == Some(s);
    }
  }

  lemma WrittenTexts(item: Item, borrower: string, now: string, days: nat, p: MarketPolicy, legal: Versions,
      iso: IsoCheck)
    requires item.pricePerDay >= 0.0 && Write(item, borrower, now, days, p, legal).Some?
    requires PolicyOk(p) && NonBlank(legal.offer) && NonBlank(legal.cancellation) && iso(now)
    ensures var s := Write(item, borrower, now, days, p, legal).value;
            s.days == days && s.lenderId == item.ownerId && s.acceptance.Some? &&
                s.acceptance.value.actorId == borrower &&
            (ConsentOk(s, iso) && TextsOk(s) <==> Readable(item, borrower))
  {
    ListingVersionFilled(if item.rulesVersion.Some? then item.rulesVersion.value else "legacy", item.updatedAt);
    hide NonBlank, Kopecks, Roubles, PriceOf;
  }

  lemma TotalBound(s: Snapshot)
    requires DecimalsAgree(s) && s.money.total <= MAX_SAFE
    ensures MinorUnits(Some(Number(s.total))) == Some(s.money.total)
  {
    MinorExact(s.total, s.money.total);
  }

  /** What the services read from a snapshot when they move money. */
  function TermsOf(s: Snapshot): Deals.Terms {
    Deals.Terms(!s.offline, s.money.total, s.money.deposit,
        if s.depositTerms.Some? then Some(s.depositTerms.value.seconds * 1000) else None)
  }

  /** The booking model starts from exactly the terms the snapshot carries, and refuses where the writer throws. */
  lemma TermsAgree(item: Item, borrower: string, now: string, days: nat, p: MarketPolicy, legal: Versions, owner: Id)
    requires item.pricePerDay >= 0.0 && days >= 1 && Kopecks(item.pricePerDay).Some? && DepositKopecks(item).Some? &&
             DepositKopecks(item).value >= 0
    requires if p.fake then DepositKopecks(item).value <= p.maximumMinor else DepositKopecks(item).value == 0
    ensures var listing := Market.Listing(owner, Kopecks(item.pricePerDay).value, DepositKopecks(item).value);
            var terms := Market.NewTerms(listing, Market.Policy(p.fake, p.maximumMinor, p.seconds * 1000), days);
            var s := Write(item, borrower, now, days, p, legal);
            (terms.Some? <==> s.Some?) && (s.Some? ==> terms.value == TermsOf(s.value))
  {
    var ppd, deposit := Kopecks(item.pricePerDay).value, DepositKopecks(item).value;
    DayWithinRental(ppd, days);
    hide Kopecks, DepositKopecks, Fee;
    if p.fake { FakeTermsAgree(item, borrower, now, days, p, legal, owner, ppd, deposit, ppd * days); }
    else { OfflineTermsAgree(item, borrower, now, days, p, legal, owner, ppd, ppd * days); }
  }

  lemma DayWithinRental(pricePerDay: nat, days: nat)
    requires days >= 1
    ensures pricePerDay <= pricePerDay * days
  {
  }

  lemma FakeTermsAgree(
    item: Item, borrower: string, now: string, days: nat, p: MarketPolicy, legal: Versions, owner: Id,
    ppd: nat, deposit: nat, rental: nat)
    requires item.pricePerDay >= 0.0 && p.fake && Kopecks(item.pricePerDay) == Some(ppd) &&
             DepositKopecks(item) == Some(deposit)
    requires deposit <= p.maximumMinor && rental == ppd * days && ppd <= rental
    ensures var terms := Market.NewTerms(Market.Listing(owner, ppd, deposit),
            Market.Policy(true, p.maximumMinor, p.seconds * 1000), days);
            var s := Write(item, borrower, now, days, p, legal);
            (terms.Some? <==> s.Some?) && (s.Some? ==> terms.value == TermsOf(s.value))
  {
    hide Kopecks, DepositKopecks, Fee, Roubles;
  }

  lemma OfflineTermsAgree(
    item: Item, borrower: string, now: string, days: nat, p: MarketPolicy, legal: Versions, owner: Id, ppd: nat,
        rental: nat)
    requires item.pricePerDay >= 0.0 && !p.fake && Kopecks(item.pricePerDay) == Some(ppd) &&
             DepositKopecks(item) == Some(0)
    requires rental == ppd * days && ppd <= rental
    ensures var terms := Market.NewTerms(Market.Listing(owner, ppd, 0),
            Market.Policy(false, p.maximumMinor, p.seconds * 1000), days);
            var s := Write(item, borrower, now, days, p, legal);
            (terms.Some? <==> s.Some?) && (s.Some? ==> terms.value == TermsOf(s.value))
  {
    hide Kopecks, DepositKopecks, Roubles;
  }
}
