/**
 * The terms snapshot of a booking: what `create` writes, how it is stored as JSON, and the reader that
 * every later service trusts. Decimal fields are exact.
 */
module TermsSnapshot {
  import opened Domain
  import opened Price
  import opened Text

  /** The field names the reader looks at; any other name is `Other`. */
  datatype Name =
    | ItemTitle | LenderId | LenderDisplayName | PricePerDay | Days | RentalSubtotal | DepositAmount
    | PlatformFee | OwnerPayout | Total | Currency | PaymentScenario | MoneyMinor | DepositTerms
    | Handover | ListingVersion | OfferVersion | CancellationPolicyVersion | Acceptance
    | Deposit | PolicyVersion | DisputeWindowSeconds | Area | Address | Latitude | Longitude
    | ActorId | AcceptedAt | Method | Other(name: string)

  datatype Json =
    | Null | Bool(flag: bool) | Number(value: real) | String(text: string)
    | Array(items: seq<Json>) | Object(fields: map<Name, Json>)

  datatype Money = Money(pricePerDay: nat, rentalSubtotal: nat, deposit: nat, platformFee: nat, ownerPayout: nat,
      total: nat)

  datatype Window = Window(policyVersion: string, seconds: nat)

  datatype Place = Place(area: string, address: string, latitude: real, longitude: real)

  datatype Consent = Consent(actorId: string, acceptedAt: string, offerVersion: string, cancellationVersion: string)

  datatype Snapshot = Snapshot(
    itemTitle: string, lenderId: string, lenderDisplayName: Option<string>,
    pricePerDay: real, days: nat, rentalSubtotal: real, depositAmount: Option<real>,
    platformFee: real, ownerPayout: real, total: real, offline: bool, money: Money, depositTerms: Option<Window>,
    handover: Place, listingVersion: string, offerVersion: Option<string>, cancellationVersion: Option<string>,
    acceptance: Option<Consent>)

  datatype Binding = Binding(borrowerId: string, lenderId: string, days: int, totalAmount: real)

  /** Whether a text is an instant exactly as `toISOString` prints it. */
  type IsoCheck = string -> bool

  // ---------------------------------------------------------------- field validators

  /** A missing field is `None`; `null` is a value. */
  function Field(o: Json, name: Name): Option<Json>
    requires o.Object?
  {
    if name in o.fields then Some(o.fields[name]) else None
  }

  predicate IsRecord(v: Option<Json>) {
    v.Some? && v.value.Object?
  }

  predicate IsNonEmpty(v: Option<Json>) {
    v.Some? && v.value.String? && NonBlank(v.value.text)
  }

  predicate NonBlank(s: string) {
    Trim(s) != ""
  }

  predicate IsNull(v: Option<Json>) {
    v == Some(Null)
  }

  predicate IsNullableString(v: Option<Json>) {
    IsNull(v) || (v.Some? && v.value.String?)
  }

  predicate IsNullableVersion(v: Option<Json>) {
    IsNull(v) || IsNonEmpty(v)
  }

  predicate IsCoordinate(v: Option<Json>, min: real, max: real) {
    v.Some? && v.value.Number? && min <= v.value.value <= max
  }

  function IntegerOf(v: Option<Json>): (n: Option<int>) {
    if v.Some? && v.value.Number? && v.value.value.Floor as real == v.value.value then Some(v.value.value.Floor)
        else None
  }

  function SafeMinor(v: Option<Json>): (n: Option<nat>)
    ensures n.Some? ==> n.value <= MAX_SAFE
  {
    var n := IntegerOf(v);
    if n.Some? && 0 <= n.value <= MAX_SAFE then Some(n.value) else None
  }

  /** The kopecks a decimal number of roubles stands for, if it is within a millionth of whole kopecks. */
  function MinorUnits(v: Option<Json>): (n: Option<nat>)
    ensures n.Some? ==> v.Some? && v.value.Number? && n.value <= MAX_SAFE && Amounts(v.value.value, n.value)
  {
    if v.None? || !v.value.Number? || v.value.value < 0.0 then None
    else
      var scaled := v.value.value * 100.0;
      var rounded := (scaled + 0.5).Floor;
      if rounded <= MAX_SAFE && -0.000001 < scaled - rounded as real < 0.000001 then Some(rounded) else None
  }

  /** A non-negative decimal and its kopecks. */
  predicate Amounts(roubles: real, minor: nat) {
    roubles >= 0.0 && -0.000001 < roubles * 100.0 - minor as real < 0.000001
  }

  function ReadMoney(v: Json): Option<Money>
    requires v.Object?
  {
    var ppd, rental, deposit := SafeMinor(Field(v, PricePerDay)), SafeMinor(Field(v, RentalSubtotal)),
        SafeMinor(Field(v, Deposit));
    var fee, payout, total := SafeMinor(Field(v, PlatformFee)), SafeMinor(Field(v, OwnerPayout)),
        SafeMinor(Field(v, Total));
    if ppd.None? || rental.None? || deposit.None? || fee.None? || payout.None? || total.None? then None
    else Some(Money(ppd.value, rental.value, deposit.value, fee.value, payout.value, total.value))
  }

  /** `None` is the reader's `undefined`. */
  function ReadDepositTerms(v: Option<Json>): Option<Option<Window>> {
    if IsNull(v) then Some(None)
    else if !IsRecord(v) || !IsNonEmpty(Field(v.value, PolicyVersion)) then None
    else
      var seconds := IntegerOf(Field(v.value, DisputeWindowSeconds));
      if seconds.None? || seconds.value <= 0 || seconds.value > MAX_SAFE then None
      else Some(Some(Window(Field(v.value, PolicyVersion).value.text, seconds.value)))
  }

  predicate ValidAcceptance(acceptance: Option<Json>, offer: Option<Json>, cancellation: Option<Json>, iso: IsoCheck)
    requires acceptance.Some? ==> acceptance.value.Object?
  {
    if IsNull(offer) && IsNull(cancellation) then acceptance.None?
    else if !IsNonEmpty(offer) || !IsNonEmpty(cancellation) || acceptance.None? then false
    else
      var a := acceptance.value;
      IsNonEmpty(Field(a, ActorId)) &&
      (var at := Field(a, AcceptedAt); at.Some? && at.value.String? && iso(at.value.text)) &&
      Field(a, Method) == Some(String("BOOKING_SUBMIT_CHECKBOX")) &&
      Field(a, OfferVersion) == offer && Field(a, CancellationPolicyVersion) == cancellation
  }

  // ---------------------------------------------------------------- the reader

  /** The six decimal fields in kopecks. */
  datatype Decimals = Decimals(
    pricePerDay: Option<nat>, rentalSubtotal: Option<nat>, deposit: Option<nat>,
    platformFee: Option<nat>, ownerPayout: Option<nat>, total: Option<nat>)

  function ReadDecimals(v: Json): Decimals
    requires v.Object?
  {
    Decimals(MinorUnits(Field(v, PricePerDay)), MinorUnits(Field(v, RentalSubtotal)),
             if IsNull(Field(v, DepositAmount)) then Some(0) else MinorUnits(Field(v, DepositAmount)),
             MinorUnits(Field(v, PlatformFee)), MinorUnits(Field(v, OwnerPayout)), MinorUnits(Field(v, Total)))
  }

  /** The money the reader goes by: the supplied record, or for an offline snapshot the decimal fields. */
  function ChosenMoney(v: Json, offline: bool, d: Decimals): Option<Money>
    requires v.Object?
  {
    var supplied := if IsRecord(Field(v, MoneyMinor)) then ReadMoney(Field(v, MoneyMinor).value) else None;
    if supplied.Some? then supplied
    else if offline && d.pricePerDay.Some? && d.rentalSubtotal.Some? && d.deposit.Some? && d.platformFee.Some? &&
        d.ownerPayout.Some? && d.total.Some?
    then Some(Money(d.pricePerDay.value, d.rentalSubtotal.value, d.deposit.value, d.platformFee.value,
        d.ownerPayout.value, d.total.value))
    else None
  }

  /** The decimals and the ledger name the same kopecks. */
  predicate SameKopecks(d: Decimals, m: Money) {
    d == Decimals(Some(m.pricePerDay), Some(m.rentalSubtotal), Some(m.deposit), Some(m.platformFee),
        Some(m.ownerPayout), Some(m.total))
  }

  predicate Ledger(m: Money, days: nat, offline: bool, window: bool) {
    && m.pricePerDay * days <= MAX_SAFE && m.rentalSubtotal == m.pricePerDay * days
    && m.ownerPayout + m.platformFee == m.rentalSubtotal
    && m.total == m.rentalSubtotal + m.deposit
    && (offline ==> m.deposit == 0 && m.platformFee == 0 && m.ownerPayout == m.rentalSubtotal && !window)
    && (!offline ==> (m.deposit > 0 <==> window))
  }

  function NullableText(v: Option<Json>): Option<string> {
    if v.Some? && v.value.String? then Some(v.value.text) else None
  }

  function ScenarioOf(v: Option<Json>): Option<bool> {
    if v == Some(String("PAY_ON_HANDOVER")) then Some(true)
    else if v == Some(String("FAKE_SAFE_DEAL")) then Some(false)
    else None
  }

  function NumberOf(v: Option<Json>): real {
    if v.Some? && v.value.Number? then v.value.value else 0.0
  }

  function TextOf(v: Option<Json>): string {
    if v.Some? && v.value.String? then v.value.text else ""
  }

  predicate TextsAccepted(v: Json, place: Json)
    requires v.Object? && place.Object?
  {
    IsNonEmpty(Field(v, ItemTitle)) && IsNonEmpty(Field(v, LenderId)) &&
        IsNullableString(Field(v, LenderDisplayName)) &&
    Field(v, Currency) == Some(String("RUB")) &&
    IsNonEmpty(Field(place, Area)) && IsNonEmpty(Field(place, Address)) &&
    IsCoordinate(Field(place, Latitude), -90.0, 90.0) && IsCoordinate(Field(place, Longitude), -180.0, 180.0) &&
    IsNonEmpty(Field(v, ListingVersion))
  }

  predicate ConsentAccepted(v: Json, consent: Option<Json>, offline: bool, iso: IsoCheck)
    requires v.Object? && (consent.Some? ==> consent.value.Object?)
  {
    IsNullableVersion(Field(v, OfferVersion)) && IsNullableVersion(Field(v, CancellationPolicyVersion)) &&
    ValidAcceptance(consent, Field(v, OfferVersion), Field(v, CancellationPolicyVersion), iso) &&
    (!offline ==> consent.Some?)
  }

  function ConsentField(v: Json): (c: Option<Json>)
    requires v.Object?
    ensures c.Some? ==> c.value.Object?
  {
    if IsRecord(Field(v, Acceptance)) then Field(v, Acceptance) else None
  }

  function ConsentOf(consent: Option<Json>): Option<Consent>
    requires consent.Some? ==> consent.value.Object?
  {
    if consent.None? then None
    else
      var c := consent.value;
      Some(Consent(TextOf(Field(c, ActorId)), TextOf(Field(c, AcceptedAt)), TextOf(Field(c, OfferVersion)),
          TextOf(Field(c, CancellationPolicyVersion))))
  }

  function PlaceOf(place: Json): Place
    requires place.Object?
  {
    Place(TextOf(Field(place, Area)), TextOf(Field(place, Address)), NumberOf(Field(place, Latitude)),
        NumberOf(Field(place, Longitude)))
  }

  /** The record the reader returns once every check passed. */
  function Build(v: Json, place: Json, offline: bool, days: nat, money: Money, window: Option<Window>): Snapshot
    requires v.Object? && place.Object?
  {
    Snapshot(
      TextOf(Field(v, ItemTitle)), TextOf(Field(v, LenderId)), NullableText(Field(v, LenderDisplayName)),
      NumberOf(Field(v, PricePerDay)), days, NumberOf(Field(v, RentalSubtotal)),
      if IsNull(Field(v, DepositAmount)) then None else Some(NumberOf(Field(v, DepositAmount))),
      NumberOf(Field(v, PlatformFee)), NumberOf(Field(v, OwnerPayout)), NumberOf(Field(v, Total)),
      offline, money, window, PlaceOf(place),
      TextOf(Field(v, ListingVersion)), NullableText(Field(v, OfferVersion)),
          NullableText(Field(v, CancellationPolicyVersion)),
      ConsentOf(ConsentField(v)))
  }

  function Read(v: Json, iso: IsoCheck): Option<Snapshot> {
    if !v.Object? || !IsRecord(Field(v, Name.Handover)) then None
    else
      var place := Field(v, Name.Handover).value;
      var decimals := ReadDecimals(v);
      var scenario := ScenarioOf(Field(v, PaymentScenario));
      var offline := scenario == Some(true);
      var money := ChosenMoney(v, offline, decimals);
      var window := if Field(v, DepositTerms).None? && offline then Some(None)
          else ReadDepositTerms(Field(v, DepositTerms));
      var days := IntegerOf(Field(v, Days));
      if !TextsAccepted(v, place) || days.None? || days.value < 1 || scenario.None? || money.None? || window.None? ||
         !ConsentAccepted(v, ConsentField(v), offline, iso) ||
         !Ledger(money.value, days.value, offline, window.value.Some?) || !SameKopecks(decimals, money.value)
      then None
      else Some(Build(v, place, offline, days.value, money.value, window.value))
  }

  /** The reader every service uses: the snapshot must also be the one of this booking. */
  function ReadBound(v: Json, binding: Binding, iso: IsoCheck): Option<Snapshot> {
    var s := Read(v, iso);
    if s.None? || s.value.lenderId != binding.lenderId || s.value.days != binding.days ||
       (s.value.acceptance.Some? && s.value.acceptance.value.actorId != binding.borrowerId) ||
       Some(s.value.money.total) != MinorUnits(Some(Number(binding.totalAmount)))
    then None else s
  }

  // ---------------------------------------------------------------- printing

  function NullableJson(s: Option<string>): Json {
    if s.Some? then String(s.value) else Null
  }

  function PrintMoney(m: Money): Json {
    Object(map[PricePerDay := Number(m.pricePerDay as real), RentalSubtotal := Number(m.rentalSubtotal as real),
               Deposit := Number(m.deposit as real), PlatformFee := Number(m.platformFee as real),
               OwnerPayout := Number(m.ownerPayout as real), Total := Number(m.total as real)])
  }

  function PrintWindow(w: Option<Window>): Json {
    if w.None? then Null
    else Object(map[PolicyVersion := String(w.value.policyVersion),
        DisputeWindowSeconds := Number(w.value.seconds as real)])
  }

  function PrintPlace(p: Place): Json {
    Object(map[Area := String(p.area), Address := String(p.address), Latitude := Number(p.latitude),
        Longitude := Number(p.longitude)])
  }

  function PrintConsent(c: Option<Consent>): Json {
    if c.None? then Null
    else
      Object(map[ActorId := String(c.value.actorId), AcceptedAt := String(c.value.acceptedAt),
                 Method := String("BOOKING_SUBMIT_CHECKBOX"), OfferVersion := String(c.value.offerVersion),
                 CancellationPolicyVersion := String(c.value.cancellationVersion)])
  }

  /** `toSnapshotJson`. */
  function Print(s: Snapshot): Json {
    Object(map[
      ItemTitle := String(s.itemTitle), LenderId := String(s.lenderId),
          LenderDisplayName := NullableJson(s.lenderDisplayName),
      PricePerDay := Number(s.pricePerDay), Days := Number(s.days as real), RentalSubtotal := Number(s.rentalSubtotal),
      DepositAmount := if s.depositAmount.Some? then Number(s.depositAmount.value) else Null,
      PlatformFee := Number(s.platformFee), OwnerPayout := Number(s.ownerPayout), Total := Number(s.total),
      Currency := String("RUB"), PaymentScenario := String(if s.offline then "PAY_ON_HANDOVER" else "FAKE_SAFE_DEAL"),
      MoneyMinor := PrintMoney(s.money), DepositTerms := PrintWindow(s.depositTerms),
          Name.Handover := PrintPlace(s.handover),
      ListingVersion := String(s.listingVersion), OfferVersion := NullableJson(s.offerVersion),
      CancellationPolicyVersion := NullableJson(s.cancellationVersion), Acceptance := PrintConsent(s.acceptance)])
  }

  // ---------------------------------------------------------------- what an accepted snapshot is

  /** The decimal fields name the same amounts as the ledger. */
  predicate DecimalsAgree(s: Snapshot) {
    && Amounts(s.pricePerDay, s.money.pricePerDay) && Amounts(s.rentalSubtotal, s.money.rentalSubtotal)
    && (if s.depositAmount.Some? then Amounts(s.depositAmount.value, s.money.deposit) else s.money.deposit == 0)
    && Amounts(s.platformFee, s.money.platformFee) && Amounts(s.ownerPayout, s.money.ownerPayout) &&
       Amounts(s.total, s.money.total)
  }

  /** Versions are accepted together, by somebody at some instant, or not at all. */
  predicate ConsentOk(s: Snapshot, iso: IsoCheck) {
    && (s.acceptance.Some? <==> s.offerVersion.Some?) && (s.acceptance.Some? <==> s.cancellationVersion.Some?)
    && (s.acceptance.Some? ==>
          var c := s.acceptance.value;
          NonBlank(c.actorId) && iso(c.acceptedAt) && NonBlank(c.offerVersion) && NonBlank(c.cancellationVersion) &&
          s.offerVersion == Some(c.offerVersion) && s.cancellationVersion == Some(c.cancellationVersion))
    && (!s.offline ==> s.acceptance.Some?)
  }

  predicate TextsOk(s: Snapshot) {
    NonBlank(s.itemTitle) && NonBlank(s.lenderId) && NonBlank(s.listingVersion) &&
    NonBlank(s.handover.area) && NonBlank(s.handover.address) &&
    -90.0 <= s.handover.latitude <= 90.0 && -180.0 <= s.handover.longitude <= 180.0 &&
    (s.depositTerms.Some? ==>
        NonBlank(s.depositTerms.value.policyVersion) &&
        0 < s.depositTerms.value.seconds <= MAX_SAFE)
  }

  /** Everything a service may take for granted about a snapshot it could read. */
  predicate WellFormed(s: Snapshot, iso: IsoCheck) {
    s.days >= 1 && s.money.total <= MAX_SAFE && Ledger(s.money, s.days, s.offline, s.depositTerms.Some?) &&
    DecimalsAgree(s) && ConsentOk(s, iso) && TextsOk(s)
  }

  // ---------------------------------------------------------------- soundness

  lemma TextsSound(v: Json, place: Json, s: Snapshot)
    requires v.Object? && place.Object? && TextsAccepted(v, place) && s.handover == PlaceOf(place)
    requires s.itemTitle == TextOf(Field(v, ItemTitle)) && s.lenderId == TextOf(Field(v, LenderId)) &&
             s.listingVersion == TextOf(Field(v, ListingVersion))
    requires ReadDepositTerms(Field(v, DepositTerms)) == Some(s.depositTerms) || s.depositTerms.None?
    ensures TextsOk(s)
  {
    hide NonBlank;
  }

  lemma DecimalsSound(v: Json, s: Snapshot)
    requires v.Object? && SameKopecks(ReadDecimals(v), s.money)
    requires s.pricePerDay == NumberOf(Field(v, PricePerDay)) && s.rentalSubtotal == NumberOf(Field(v, RentalSubtotal))
    requires s.depositAmount == if IsNull(Field(v, DepositAmount)) then None
             else Some(NumberOf(Field(v, DepositAmount)))
    requires s.platformFee == NumberOf(Field(v, PlatformFee)) && s.ownerPayout == NumberOf(Field(v, OwnerPayout)) &&
             s.total == NumberOf(Field(v, Total))
    ensures DecimalsAgree(s) && s.money.total <= MAX_SAFE
  {
    hide Amounts, MinorUnits;
  }

  lemma ConsentSound(v: Json, s: Snapshot, iso: IsoCheck)
    requires v.Object? && ConsentAccepted(v, ConsentField(v), s.offline, iso) &&
             s.acceptance == ConsentOf(ConsentField(v))
    requires s.offerVersion == NullableText(Field(v, OfferVersion)) &&
             s.cancellationVersion == NullableText(Field(v, CancellationPolicyVersion))
    ensures ConsentOk(s, iso)
  {
    hide NonBlank;
  }

  /** Anything the reader accepts is well formed, whatever JSON it came from. */
  lemma ReaderSound(v: Json, iso: IsoCheck)
    requires Read(v, iso).Some?
    ensures WellFormed(Read(v, iso).value, iso)
  {
    hide TextsAccepted, TextsOk, DecimalsAgree, ConsentOk, ConsentAccepted, SameKopecks, ReadDecimals,
      ReadDepositTerms, ChosenMoney, Ledger, PlaceOf, ConsentOf, ConsentField, TextOf, NumberOf, NullableText;
    var s := Read(v, iso).value;
    TextsSound(v, Field(v, Name.Handover).value, s);
    DecimalsSound(v, s);
    ConsentSound(v, s, iso);
  }

  // ---------------------------------------------------------------- completeness

  lemma MinorExact(x: real, n: nat)
    requires Amounts(x, n) && n <= MAX_SAFE
    ensures MinorUnits(Some(Number(x))) == Some(n)
  {
    assert (x * 100.0 + 0.5).Floor == n;
  }

  lemma IntegerExact(n: nat)
    ensures IntegerOf(Some(Number(n as real))) == Some(n)
  {
  }

  // The fields of a printed snapshot.

  lemma PrintedTexts(s: Snapshot, v: Json)
    requires v == Print(s)
    ensures v.Object?
    ensures Field(v, ItemTitle) == Some(String(s.itemTitle)) && Field(v, LenderId) == Some(String(s.lenderId))
    ensures Field(v, LenderDisplayName) == Some(NullableJson(s.lenderDisplayName)) &&
            Field(v, Currency) == Some(String("RUB"))
    ensures Field(v, ListingVersion) == Some(String(s.listingVersion))
  {
    hide PrintPlace, PrintMoney, PrintWindow, PrintConsent, NullableJson;
  }

  lemma PrintedAmounts(s: Snapshot, v: Json)
    requires v == Print(s)
    ensures v.Object?
    ensures Field(v, PricePerDay) == Some(Number(s.pricePerDay)) &&
            Field(v, RentalSubtotal) == Some(Number(s.rentalSubtotal))
    ensures Field(v, DepositAmount) == Some(if s.depositAmount.Some? then Number(s.depositAmount.value) else Null)
    ensures Field(v, PlatformFee) == Some(Number(s.platformFee)) &&
            Field(v, OwnerPayout) == Some(Number(s.ownerPayout)) && Field(v, Total) == Some(Number(s.total))
  {
    hide PrintPlace, PrintMoney, PrintWindow, PrintConsent, NullableJson;
  }

  lemma PrintedConsent(s: Snapshot, v: Json)
    requires v == Print(s)
    ensures v.Object?
    ensures Field(v, OfferVersion) == Some(NullableJson(s.offerVersion))
    ensures Field(v, CancellationPolicyVersion) == Some(NullableJson(s.cancellationVersion)) &&
            Field(v, Acceptance) == Some(PrintConsent(s.acceptance))
  {
    hide PrintPlace, PrintMoney, PrintWindow, PrintConsent, NullableJson;
  }

  lemma PrintedRecords(s: Snapshot, v: Json)
    requires v == Print(s)
    ensures v.Object?
    ensures Field(v, MoneyMinor) == Some(PrintMoney(s.money)) && Field(v, Days) == Some(Number(s.days as real))
    ensures Field(v, DepositTerms) == Some(PrintWindow(s.depositTerms)) &&
            Field(v, Name.Handover) == Some(PrintPlace(s.handover))
    ensures Field(v, PaymentScenario) == Some(String(if s.offline then "PAY_ON_HANDOVER" else "FAKE_SAFE_DEAL"))
  {
    hide PrintPlace, PrintMoney, PrintWindow, PrintConsent, NullableJson;
  }

  lemma MoneyRead(m: Money, days: nat, offline: bool, window: bool)
    requires Ledger(m, days, offline, window) && m.total <= MAX_SAFE && days >= 1
    ensures ReadMoney(PrintMoney(m)) == Some(m)
    ensures m.pricePerDay <= MAX_SAFE && m.rentalSubtotal <= MAX_SAFE && m.deposit <= MAX_SAFE &&
            m.platformFee <= MAX_SAFE && m.ownerPayout <= MAX_SAFE
  {
    assert m.pricePerDay <= m.pricePerDay * days;
    IntegerExact(m.pricePerDay);
    IntegerExact(m.rentalSubtotal);
    IntegerExact(m.deposit);
    IntegerExact(m.platformFee);
    IntegerExact(m.ownerPayout);
    IntegerExact(m.total);
    hide IntegerOf;
  }

  lemma WindowRead(w: Option<Window>)
    requires w.Some? ==> NonBlank(w.value.policyVersion) && 0 < w.value.seconds <= MAX_SAFE
    ensures ReadDepositTerms(Some(PrintWindow(w))) == Some(w)
  {
    if w.Some? { IntegerExact(w.value.seconds); }
    hide IntegerOf, NonBlank;
  }

  lemma ConsentRead(s: Snapshot, v: Json, iso: IsoCheck)
    requires ConsentOk(s, iso) && v == Print(s)
    ensures v.Object? && ConsentAccepted(v, ConsentField(v), s.offline, iso) &&
            ConsentOf(ConsentField(v)) == s.acceptance
  {
    PrintedConsent(s, v);
    if s.acceptance.Some? { ConsentFields(s.acceptance.value); }
    hide Print, Field, NonBlank;
  }

  lemma ConsentFields(c: Consent)
    ensures var p := PrintConsent(Some(c));
            p.Object? && Field(p, ActorId) == Some(String(c.actorId)) &&
                Field(p, AcceptedAt) == Some(String(c.acceptedAt)) &&
            Field(p, Method) == Some(String("BOOKING_SUBMIT_CHECKBOX")) &&
                Field(p, OfferVersion) == Some(String(c.offerVersion)) &&
            Field(p, CancellationPolicyVersion) == Some(String(c.cancellationVersion))
  {
  }

  lemma PlaceRead(p: Place)
    requires NonBlank(p.area) && NonBlank(p.address) && -90.0 <= p.latitude <= 90.0 && -180.0 <= p.longitude <= 180.0
    ensures var place := PrintPlace(p);
            IsNonEmpty(Field(place, Area)) && IsNonEmpty(Field(place, Address)) &&
            IsCoordinate(Field(place, Latitude), -90.0, 90.0) &&
                IsCoordinate(Field(place, Longitude), -180.0, 180.0) && PlaceOf(place) == p
  {
    hide NonBlank;
  }

  lemma TextsRead(s: Snapshot, v: Json)
    requires TextsOk(s) && v == Print(s)
    ensures v.Object? && TextsAccepted(v, PrintPlace(s.handover)) && PlaceOf(PrintPlace(s.handover)) == s.handover
  {
    PrintedTexts(s, v);
    PlaceRead(s.handover);
    hide Print, Field, NonBlank, PrintPlace, IsCoordinate, PlaceOf;
  }

  /** The decimals of a well-formed snapshot are read as its ledger. */
  lemma DecimalsRead(s: Snapshot, v: Json)
    requires DecimalsAgree(s) && Ledger(s.money, s.days, s.offline, s.depositTerms.Some?) &&
             s.money.total <= MAX_SAFE && s.days >= 1
    requires v == Print(s)
    ensures v.Object? && SameKopecks(ReadDecimals(v), s.money)
  {
    PrintedAmounts(s, v);
    MoneyRead(s.money, s.days, s.offline, s.depositTerms.Some?);
    hide Print, Field, MinorUnits, Amounts, Ledger;
    MinorExact(s.pricePerDay, s.money.pricePerDay);
    MinorExact(s.rentalSubtotal, s.money.rentalSubtotal);
    MinorExact(s.platformFee, s.money.platformFee);
    MinorExact(s.ownerPayout, s.money.ownerPayout);
    MinorExact(s.total, s.money.total);
    if s.depositAmount.Some? { MinorExact(s.depositAmount.value, s.money.deposit); }
  }

  lemma BuildPrinted(s: Snapshot, v: Json)
    requires v == Print(s) && v.Object? && ConsentOf(ConsentField(v)) == s.acceptance &&
             PlaceOf(PrintPlace(s.handover)) == s.handover
    ensures Build(v, PrintPlace(s.handover), s.offline, s.days, s.money, s.depositTerms) == s
  {
    PrintedTexts(s, v);
    PrintedAmounts(s, v);
    PrintedConsent(s, v);
    PrintedRecords(s, v);
    hide Print, Field, ConsentOf, ConsentField, PlaceOf, PrintPlace;
  }

  /** The reader's answer from its parts. */
  lemma Accepted(v: Json, iso: IsoCheck, place: Json, s: Snapshot)
    requires v.Object? && place.Object? && Field(v, Name.Handover) == Some(place) && TextsAccepted(v, place)
    requires IntegerOf(Field(v, Days)) == Some(s.days) && s.days >= 1
    requires ScenarioOf(Field(v, PaymentScenario)) == Some(s.offline) &&
             ConsentAccepted(v, ConsentField(v), s.offline, iso)
    requires ChosenMoney(v, s.offline, ReadDecimals(v)) == Some(s.money) && SameKopecks(ReadDecimals(v), s.money)
    requires Field(v, DepositTerms).Some? && ReadDepositTerms(Field(v, DepositTerms)) == Some(s.depositTerms)
    requires Ledger(s.money, s.days, s.offline, s.depositTerms.Some?)
    ensures Read(v, iso) == Some(Build(v, place, s.offline, s.days, s.money, s.depositTerms))
  {
    hide Field, IntegerOf, ReadDepositTerms, TextsAccepted, ConsentAccepted, ConsentField, Ledger, ReadDecimals,
      SameKopecks, Build, ChosenMoney, ScenarioOf;
  }

  /** Every well-formed snapshot is read back from its JSON as itself. */
  lemma PrintRead(s: Snapshot, iso: IsoCheck)
    requires WellFormed(s, iso)
    ensures Read(Print(s), iso) == Some(s)
  {
    hide Print, Read, Build, Field, Ledger, DecimalsAgree, ConsentOk, TextsOk, TextsAccepted, ConsentAccepted,
      ConsentOf, ConsentField,
         ReadDecimals, SameKopecks, PlaceOf, PrintPlace, PrintMoney, PrintWindow, NullableJson, IntegerOf,
             ReadDepositTerms;
    var v := Print(s);
    PrintedRecords(s, v);
    TextsRead(s, v);
    ConsentRead(s, v, iso);
    DecimalsRead(s, v);
    BuildPrinted(s, v);
    RecordsRead(s, v);
    IntegerExact(s.days);
    Accepted(v, iso, PrintPlace(s.handover), s);
  }

  lemma RecordsRead(s: Snapshot, v: Json)
    requires v == Print(s) && s.days >= 1 && s.money.total <= MAX_SAFE &&
             Ledger(s.money, s.days, s.offline, s.depositTerms.Some?) && TextsOk(s)
    ensures v.Object? && PrintPlace(s.handover).Object? && ScenarioOf(Field(v, PaymentScenario)) == Some(s.offline)
    ensures ChosenMoney(v, s.offline, ReadDecimals(v)) == Some(s.money)
    ensures ReadDepositTerms(Field(v, DepositTerms)) == Some(s.depositTerms)
  {
    PrintedRecords(s, v);
    MoneyRead(s.money, s.days, s.offline, s.depositTerms.Some?);
    WindowRead(s.depositTerms);
    assert PrintMoney(s.money).Object?;
    hide Print, Field, Ledger, ReadMoney, PrintMoney, PrintWindow, ReadDepositTerms, ReadDecimals, NonBlank;
  }

  /** The reader accepts exactly the prints of well-formed snapshots, among prints. */
  lemma PrintReadIff(s: Snapshot, iso: IsoCheck)
    ensures Read(Print(s), iso) == Some(s) <==> WellFormed(s, iso)
  {
    hide Read, WellFormed;
    if WellFormed(s, iso) { PrintRead(s, iso); }
    if Read(Print(s), iso) == Some(s) { ReaderSound(Print(s), iso); }
  }

  /** Whatever JSON was accepted once, legacy snapshots included: stored again it is read as the same terms. */
  lemma ReadIdempotent(v: Json, iso: IsoCheck)
    requires Read(v, iso).Some?
    ensures Read(Print(Read(v, iso).value), iso) == Read(v, iso)
  {
    hide Read, WellFormed;
    ReaderSound(v, iso);
    PrintRead(Read(v, iso).value, iso);
  }
}