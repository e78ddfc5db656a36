/** Money in kopecks: the provisional price of a deal and the booking period it is charged for. */
module Price {
  import opened Domain

  const BASIS_POINTS: nat := 10_000
  const FEE_BASIS_POINTS: nat := 100
  const MAX_DAYS: nat := 30
  const HORIZON_DAYS: nat := 90

  datatype DealPrice = DealPrice(rental: nat, deposit: nat, total: nat, fee: nat, payout: nat)

  function Fee(rental: nat): nat {
    (rental * FEE_BASIS_POINTS + BASIS_POINTS / 2) / BASIS_POINTS
  }

  /** The price of a safe deal; `None` where the source throws. */
  function SafeDealPrice(rental: int, deposit: int): (p: Option<DealPrice>)
    ensures p.Some? <==> rental > 0 && deposit >= 0
    ensures p.Some? ==> p.value.fee + p.value.payout == p.value.rental == rental
    ensures p.Some? ==> p.value.rental + p.value.deposit == p.value.total && p.value.deposit == deposit
  {
    if rental <= 0 || deposit < 0 then None
    else
      FeeBounds(rental);
      Some(DealPrice(rental, deposit, rental + deposit, Fee(rental), rental - Fee(rental)))
  }

  /** The fee is one percent to the nearest kopeck, half a kopeck rounding up. */
  lemma FeeBounds(rental: nat)
    ensures rental - 50 < 100 * Fee(rental) <= rental + 50
    ensures Fee(rental) <= rental
  {
  }

  /** A dearer rental never costs a smaller fee. */
  lemma FeeMonotone(a: nat, b: nat)
    requires a <= b
    ensures Fee(a) <= Fee(b)
  {
  }

  /** Splitting a rental in two moves the fee by at most one kopeck. */
  lemma FeeSplit(a: nat, b: nat)
    ensures -1 <= Fee(a + b) - (Fee(a) + Fee(b)) <= 1
  {
  }

  /** The bounds of a booking period over day numbers; the result is the number of days. */
  function ParsePeriod(start: int, end: int, today: int): (days: Option<nat>)
    ensures days.Some? <==> today <= start <= end < start + MAX_DAYS && start - today <= HORIZON_DAYS
    ensures days.Some? ==> 1 <= days.value <= MAX_DAYS && days.value == end - start + 1
  {
    if start < today then None
    else if end < start then None
    else
      var days := end - start + 1;
      if days > MAX_DAYS then None
      else if start - today > HORIZON_DAYS then None
      else Some(days)
  }
}
