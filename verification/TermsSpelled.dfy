/**
 * The reader field by field: what JSON spells a snapshot, stored with its ledger or before ledgers were stored.
 * The reader accepts exactly the JSON that spells a well-formed snapshot, and answers with it.
 */
module TermsSpelled {
  import opened Domain
  import opened Price
  import opened Text
  import opened TermsSnapshot

  // ---------------------------------------------------------------- what spells a snapshot

  function Nullable(t: Option<string>): Option<Json> {
    Some(if t.Some? then String(t.value) else Null)
  }

  function Whole(n: nat): Option<Json> {
    Some(Number(n as real))
  }

  predicate SpellsTexts(v: Json, s: Snapshot)
    requires v.Object?
  {
    && Field(v, ItemTitle) == Some(String(s.itemTitle)) && Field(v, LenderId) == Some(String(s.lenderId))
    && Field(v, LenderDisplayName) == Nullable(s.lenderDisplayName)
    && Field(v, Currency) == Some(String("RUB")) && Field(v, ListingVersion) == Some(String(s.listingVersion))
    && Field(v, PaymentScenario) == Some(String(if s.offline then "PAY_ON_HANDOVER" else "FAKE_SAFE_DEAL"))
    && Field(v, Days) == Whole(s.days)
  }

  predicate SpellsAmounts(v: Json, s: Snapshot)
    requires v.Object?
  {
    && Field(v, PricePerDay) == Some(Number(s.pricePerDay))
    && Field(v, RentalSubtotal) == Some(Number(s.rentalSubtotal))
    && Field(v, DepositAmount) == Some(if s.depositAmount.Some? then Number(s.depositAmount.value) else Null)
    && Field(v, PlatformFee) == Some(Number(s.platformFee)) && Field(v, OwnerPayout) == Some(Number(s.ownerPayout))
    && Field(v, Total) == Some(Number(s.total))
  }

  predicate SpellsPlace(v: Json, p: Place)
    requires v.Object?
  {
    var place := Field(v, Name.Handover);
    IsRecord(place) &&
    Field(place.value, Area) == Some(String(p.area)) && Field(place.value, Address) == Some(String(p.address)) &&
    Field(place.value, Latitude) == Some(Number(p.latitude)) &&
    Field(place.value, Longitude) == Some(Number(p.longitude))
  }

  /** Nobody accepted anything, or somebody accepted exactly these versions. */
  predicate SpellsConsent(v: Json, s: Snapshot)
    requires v.Object?
  {
    var a := Field(v, Acceptance);
    && Field(v, OfferVersion) == Nullable(s.offerVersion)
    && Field(v, CancellationPolicyVersion) == Nullable(s.cancellationVersion)
    && (s.acceptance.None? ==> !IsRecord(a))
    && (s.acceptance.Some? ==>
          IsRecord(a) &&
          var c := s.acceptance.value;
          Field(a.value, ActorId) == Some(String(c.actorId)) &&
          Field(a.value, AcceptedAt) == Some(String(c.acceptedAt)) &&
          Field(a.value, Method) == Some(String("BOOKING_SUBMIT_CHECKBOX")) &&
          Field(a.value, OfferVersion) == Some(String(c.offerVersion)) &&
          Field(a.value, CancellationPolicyVersion) == Some(String(c.cancellationVersion)))
  }

  /** A ledger record: six whole amounts that JavaScript holds exactly. */
  predicate IsLedger(v: Option<Json>, m: Money) {
    IsRecord(v) &&
    Field(v.value, PricePerDay) == Whole(m.pricePerDay) && m.pricePerDay <= MAX_SAFE &&
    Field(v.value, RentalSubtotal) == Whole(m.rentalSubtotal) && m.rentalSubtotal <= MAX_SAFE &&
    Field(v.value, Deposit) == Whole(m.deposit) && m.deposit <= MAX_SAFE &&
    Field(v.value, PlatformFee) == Whole(m.platformFee) && m.platformFee <= MAX_SAFE &&
    Field(v.value, OwnerPayout) == Whole(m.ownerPayout) && m.ownerPayout <= MAX_SAFE &&
    Field(v.value, Total) == Whole(m.total) && m.total <= MAX_SAFE
  }

  /** The ledger is stored; or it is an offline snapshot in which none can be read. */
  ghost predicate SpellsLedger(v: Json, s: Snapshot)
    requires v.Object?
  {
    IsLedger(Field(v, MoneyMinor), s.money) || (s.offline && forall m :: !IsLedger(Field(v, MoneyMinor), m))
  }

  predicate IsWindow(v: Option<Json>, w: Window) {
    IsRecord(v) && Field(v.value, PolicyVersion) == Some(String(w.policyVersion)) &&
    Field(v.value, DisputeWindowSeconds) == Whole(w.seconds)
  }

  /** The deposit's window is stored; or null is; or, in an offline snapshot, nothing. */
  predicate SpellsWindow(v: Json, s: Snapshot)
    requires v.Object?
  {
    var w := Field(v, DepositTerms);
    if s.depositTerms.Some? then IsWindow(w, s.depositTerms.value) else w == Some(Null) || (w.None? && s.offline)
  }

  ghost predicate Spells(v: Json, s: Snapshot) {
    v.Object? && SpellsTexts(v, s) && SpellsAmounts(v, s) && SpellsPlace(v, s.handover) && SpellsConsent(v, s) &&
    SpellsLedger(v, s) && SpellsWindow(v, s)
  }

  // ---------------------------------------------------------------- the records

  lemma WholeIff(v: Option<Json>, n: nat)
    ensures IntegerOf(v) == Some(n) <==> v == Whole(n)
  {
  }

  lemma SafeIff(v: Option<Json>, n: nat)
    ensures SafeMinor(v) == Some(n) <==> v == Whole(n) && n <= MAX_SAFE
  {
    WholeIff(v, n);
    hide IntegerOf;
  }

  lemma LedgerIff(v: Json, m: Money)
    requires v.Object?
    ensures ReadMoney(v) == Some(m) <==> IsLedger(Some(v), m)
  {
    SafeIff(Field(v, PricePerDay), m.pricePerDay);
    SafeIff(Field(v, RentalSubtotal), m.rentalSubtotal);
    SafeIff(Field(v, Deposit), m.deposit);
    SafeIff(Field(v, PlatformFee), m.platformFee);
    SafeIff(Field(v, OwnerPayout), m.ownerPayout);
    SafeIff(Field(v, Total), m.total);
    hide SafeMinor, Field, Whole;
  }

  lemma WindowIff(v: Option<Json>, w: Window)
    ensures ReadDepositTerms(v) == Some(Some(w)) <==>
            IsWindow(v, w) && NonBlank(w.policyVersion) && 0 < w.seconds <= MAX_SAFE
  {
    if IsRecord(v) { WholeIff(Field(v.value, DisputeWindowSeconds), w.seconds); }
    hide NonBlank;
  }

  /** The money the reader goes by is the stored ledger, or what the decimals of an offline snapshot say. */
  lemma ChosenIff(v: Json, s: Snapshot)
    requires v.Object? && SameKopecks(ReadDecimals(v), s.money)
    ensures ChosenMoney(v, s.offline, ReadDecimals(v)) == Some(s.money) <==> SpellsLedger(v, s)
  {
    hide ReadDecimals, IsLedger, ReadMoney, Field;
    var stored := Field(v, MoneyMinor);
    if IsRecord(stored) {
      forall m ensures ReadMoney(stored.value) == Some(m) <==> IsLedger(stored, m) { LedgerIff(stored.value, m); }
      if ReadMoney(stored.value).Some? { assert IsLedger(stored, ReadMoney(stored.value).value); }
    } else {
      forall m ensures !IsLedger(stored, m) { NoRecord(stored, m); }
    }
  }

  lemma NoRecord(v: Option<Json>, m: Money)
    requires !IsRecord(v)
    ensures !IsLedger(v, m)
  {
  }

  // ---------------------------------------------------------------- accepted means spelled

  lemma TextsSpelled(v: Json, place: Json, s: Snapshot)
    requires v.Object? && place.Object? && Field(v, Name.Handover) == Some(place) && TextsAccepted(v, place)
    requires IntegerOf(Field(v, Days)) == Some(s.days) && ScenarioOf(Field(v, PaymentScenario)) == Some(s.offline)
    requires s.itemTitle == TextOf(Field(v, ItemTitle)) && s.lenderId == TextOf(Field(v, LenderId))
    requires s.lenderDisplayName == NullableText(Field(v, LenderDisplayName))
    requires s.listingVersion == TextOf(Field(v, ListingVersion)) && s.handover == PlaceOf(place)
    ensures SpellsTexts(v, s) && SpellsPlace(v, s.handover)
  {
    WholeIff(Field(v, Days), s.days);
    hide NonBlank, Field, IntegerOf;
  }

  lemma AmountsSpelled(v: Json, s: Snapshot)
    requires v.Object? && SameKopecks(ReadDecimals(v), s.money)
    requires s.pricePerDay == NumberOf(Field(v, PricePerDay)) && s.rentalSubtotal == NumberOf(Field(v, RentalSubtotal))
    requires s.depositAmount == if IsNull(Field(v, DepositAmount)) then None
             else Some(NumberOf(Field(v, DepositAmount)))
    requires s.platformFee == NumberOf(Field(v, PlatformFee)) && s.ownerPayout == NumberOf(Field(v, OwnerPayout)) &&
             s.total == NumberOf(Field(v, Total))
    ensures SpellsAmounts(v, s)
  {
    hide MinorUnits, Amounts, Field;
  }

  lemma ConsentSpelled(v: Json, s: Snapshot, iso: IsoCheck)
    requires v.Object? && ConsentAccepted(v, ConsentField(v), s.offline, iso)
    requires s.acceptance == ConsentOf(ConsentField(v))
    requires s.offerVersion == NullableText(Field(v, OfferVersion)) &&
             s.cancellationVersion == NullableText(Field(v, CancellationPolicyVersion))
    ensures SpellsConsent(v, s)
  {
    hide NonBlank, Field;
  }

  /** The window as the reader takes it: an offline snapshot may lack the field. */
  function WindowField(v: Json, offline: bool): Option<Option<Window>>
    requires v.Object?
  {
    if Field(v, DepositTerms).None? && offline then Some(None) else ReadDepositTerms(Field(v, DepositTerms))
  }

  lemma WindowSpelled(v: Json, s: Snapshot)
    requires v.Object?
    requires WindowField(v, s.offline) == Some(s.depositTerms)
    ensures SpellsWindow(v, s)
  {
    if s.depositTerms.Some? { WindowIff(Field(v, DepositTerms), s.depositTerms.value); }
    hide NonBlank, Field, IsWindow;
  }

  lemma ScenarioKnown(v: Option<Json>)
    ensures ScenarioOf(v).Some? ==> ScenarioOf(v) == Some(ScenarioOf(v) == Some(true))
  {
  }

  lemma ReadSpells(v: Json, iso: IsoCheck)
    requires Read(v, iso).Some?
    ensures Spells(v, Read(v, iso).value)
  {
    hide SpellsTexts, SpellsAmounts, SpellsPlace, SpellsConsent, SpellsLedger, SpellsWindow, TextsAccepted,
      ConsentAccepted, ConsentField, ConsentOf, ReadDecimals, SameKopecks, ChosenMoney, ReadDepositTerms, IntegerOf,
      ScenarioOf, Ledger, PlaceOf, TextOf, NumberOf, NullableText, Field;
    var s := Read(v, iso).value;
    assert ScenarioOf(Field(v, PaymentScenario)) == Some(s.offline) by { ScenarioKnown(Field(v, PaymentScenario)); }
    TextsSpelled(v, Field(v, Name.Handover).value, s);
    AmountsSpelled(v, s);
    ConsentSpelled(v, s, iso);
    ChosenIff(v, s);
    WindowSpelled(v, s);
  }

  // ---------------------------------------------------------------- spelled means accepted

  lemma TextsAreAccepted(v: Json, s: Snapshot)
    requires v.Object? && SpellsTexts(v, s) && SpellsPlace(v, s.handover) && TextsOk(s)
    ensures var place := Field(v, Name.Handover);
            IsRecord(place) && TextsAccepted(v, place.value) && PlaceOf(place.value) == s.handover
    ensures IntegerOf(Field(v, Days)) == Some(s.days) && ScenarioOf(Field(v, PaymentScenario)) == Some(s.offline)
  {
    WholeIff(Field(v, Days), s.days);
    hide NonBlank, Field, IntegerOf;
  }

  lemma ConsentIsAccepted(v: Json, s: Snapshot, iso: IsoCheck)
    requires v.Object? && SpellsConsent(v, s) && ConsentOk(s, iso)
    ensures ConsentAccepted(v, ConsentField(v), s.offline, iso) && ConsentOf(ConsentField(v)) == s.acceptance
  {
    hide NonBlank, Field;
  }

  lemma DecimalsAreRead(v: Json, s: Snapshot)
    requires v.Object? && SpellsAmounts(v, s) && DecimalsAgree(s) && s.days >= 1 && s.money.total <= MAX_SAFE
    requires Ledger(s.money, s.days, s.offline, s.depositTerms.Some?)
    ensures SameKopecks(ReadDecimals(v), s.money)
  {
    MoneyRead(s.money, s.days, s.offline, s.depositTerms.Some?);
    hide Field, MinorUnits, Amounts, Ledger;
    MinorExact(s.pricePerDay, s.money.pricePerDay);
    MinorExact(s.rentalSubtotal, s.money.rentalSubtotal);
    MinorExact(s.platformFee, s.money.platformFee);
    MinorExact(s.ownerPayout, s.money.ownerPayout);
    MinorExact(s.total, s.money.total);
    if s.depositAmount.Some? { MinorExact(s.depositAmount.value, s.money.deposit); }
  }

  lemma WindowIsRead(v: Json, s: Snapshot)
    requires v.Object? && SpellsWindow(v, s) && TextsOk(s)
    ensures WindowField(v, s.offline) == Some(s.depositTerms)
  {
    if s.depositTerms.Some? { WindowIff(Field(v, DepositTerms), s.depositTerms.value); }
    hide NonBlank, Field;
  }

  lemma BuildSpelled(v: Json, s: Snapshot)
    requires v.Object? && SpellsTexts(v, s) && SpellsAmounts(v, s) && SpellsConsent(v, s)
    requires IsRecord(Field(v, Name.Handover)) && PlaceOf(Field(v, Name.Handover).value) == s.handover
    requires ConsentOf(ConsentField(v)) == s.acceptance
    ensures Build(v, Field(v, Name.Handover).value, s.offline, s.days, s.money, s.depositTerms) == s
  {
    hide Field, ConsentOf, ConsentField, PlaceOf;
  }

  lemma SpelledRead(v: Json, s: Snapshot, iso: IsoCheck)
    requires WellFormed(s, iso) && Spells(v, s)
    ensures Read(v, iso) == Some(s)
  {
    hide SpellsTexts, SpellsAmounts, SpellsPlace, SpellsConsent, SpellsLedger, SpellsWindow, TextsAccepted, TextsOk,
      ConsentAccepted, ConsentField, ConsentOf, ConsentOk, ReadDecimals, SameKopecks, ChosenMoney, ReadDepositTerms,
      IntegerOf, ScenarioOf, Ledger, PlaceOf, Build, DecimalsAgree, Field;
    TextsAreAccepted(v, s);
    ConsentIsAccepted(v, s, iso);
    DecimalsAreRead(v, s);
    ChosenIff(v, s);
    WindowIsRead(v, s);
    BuildSpelled(v, s);
  }

  // ---------------------------------------------------------------- main results

  /** The reader answers with a snapshot exactly when it is well formed and the JSON spells it. */
  lemma ReadIff(v: Json, s: Snapshot, iso: IsoCheck)
    ensures Read(v, iso) == Some(s) <==> WellFormed(s, iso) && Spells(v, s)
  {
    hide Read, WellFormed, Spells;
    if Read(v, iso).Some? {
      ReadSpells(v, iso);
      ReaderSound(v, iso);
    }
    if WellFormed(s, iso) && Spells(v, s) { SpelledRead(v, s, iso); }
  }

  /**
   * An offline snapshot stored before there were ledgers and deposit windows is read like one stored with them: the
   * ledger is missing or unreadable, the window missing or null, and all other fields are as printed now.
   */
  lemma LegacyRead(v: Json, s: Snapshot, iso: IsoCheck)
    requires WellFormed(s, iso) && s.offline && v.Object?
    requires SameBut(v, Print(s))
    requires forall m :: !IsLedger(Field(v, MoneyMinor), m)
    requires Field(v, DepositTerms).None? || Field(v, DepositTerms) == Some(Null)
    ensures Read(v, iso) == Some(s)
  {
    hide WellFormed, Read, IsLedger;
    assert s.depositTerms.None? by { OfflineWindow(s, iso); }
    PrintSpells(s, iso);
    SamePlaces(v, Print(s), s);
    SpelledRead(v, s, iso);
  }

  lemma OfflineWindow(s: Snapshot, iso: IsoCheck)
    requires WellFormed(s, iso) && s.offline
    ensures s.depositTerms.None?
  {
    hide TextsOk, ConsentOk, DecimalsAgree;
  }

  lemma PrintSpells(s: Snapshot, iso: IsoCheck)
    requires WellFormed(s, iso)
    ensures Spells(Print(s), s)
  {
    hide WellFormed, Spells, Read;
    PrintRead(s, iso);
    ReadIff(Print(s), s, iso);
  }

  /** The same fields but for the ledger and the window. */
  predicate SameBut(v: Json, p: Json)
    requires v.Object? && p.Object?
  {
    && Field(v, ItemTitle) == Field(p, ItemTitle) && Field(v, LenderId) == Field(p, LenderId)
    && Field(v, LenderDisplayName) == Field(p, LenderDisplayName) && Field(v, Currency) == Field(p, Currency)
    && Field(v, ListingVersion) == Field(p, ListingVersion) && Field(v, PaymentScenario) == Field(p, PaymentScenario)
    && Field(v, Days) == Field(p, Days) && Field(v, PricePerDay) == Field(p, PricePerDay)
    && Field(v, RentalSubtotal) == Field(p, RentalSubtotal) && Field(v, DepositAmount) == Field(p, DepositAmount)
    && Field(v, PlatformFee) == Field(p, PlatformFee) && Field(v, OwnerPayout) == Field(p, OwnerPayout)
    && Field(v, Total) == Field(p, Total) && Field(v, Name.Handover) == Field(p, Name.Handover)
    && Field(v, OfferVersion) == Field(p, OfferVersion)
    && Field(v, CancellationPolicyVersion) == Field(p, CancellationPolicyVersion)
    && Field(v, Acceptance) == Field(p, Acceptance)
  }

  lemma SamePlaces(v: Json, p: Json, s: Snapshot)
    requires v.Object? && Spells(p, s) && SameBut(v, p) && s.offline && s.depositTerms.None?
    requires forall m :: !IsLedger(Field(v, MoneyMinor), m)
    requires Field(v, DepositTerms).None? || Field(v, DepositTerms) == Some(Null)
    ensures Spells(v, s)
  {
    hide Field, IsLedger;
  }

  /** Every service accepts a snapshot for exactly the booking it was made for. */
  lemma ReadBoundIff(v: Json, s: Snapshot, binding: Binding, iso: IsoCheck)
    ensures ReadBound(v, binding, iso) == Some(s) <==>
            Read(v, iso) == Some(s) && s.lenderId == binding.lenderId && s.days == binding.days &&
            (s.acceptance.Some? ==> s.acceptance.value.actorId == binding.borrowerId) &&
            Amounts(binding.totalAmount, s.money.total)
  {
    hide Read, WellFormed;
    if Read(v, iso) == Some(s) {
      ReaderSound(v, iso);
      TotalSafe(s, iso);
      if Amounts(binding.totalAmount, s.money.total) { MinorExact(binding.totalAmount, s.money.total); }
      hide MinorUnits, Amounts;
    }
  }

  lemma TotalSafe(s: Snapshot, iso: IsoCheck)
    requires WellFormed(s, iso)
    ensures s.money.total <= MAX_SAFE
  {
  }
}
