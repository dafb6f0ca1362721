/**
 The discount computation of `Customer.applyDiscount`, on values.

 The stored discount rate is optional: JavaScript's `undefined` (never
 assigned) and `null` are both `None`. Amounts and rates are exact reals.
 */
module Discount {

  datatype Option<T> = None | Some(value: T)

  /** JavaScript's `!rate` on the values the field can hold: unset or zero. */
  predicate NoDiscount(rate: Option<real>) {
    rate == None || rate == Some(0.0)
  }

  /** The rate that is actually taken off: zero when there is no discount. */
  function EffectiveRate(rate: Option<real>): (r: real) {
    if NoDiscount(rate) then 0.0 else rate.value
  }

  /** `applyDiscount(amount)` for a customer whose stored rate is `rate`:
      the amount itself when the rate is falsy, otherwise the amount less
      `rate * amount`. No sign or range check is made on the rate. */
  function Discounted(rate: Option<real>, amount: real): (r: real)
    ensures r == amount * (1.0 - EffectiveRate(rate))
    ensures r == amount <==> NoDiscount(rate) || amount == 0.0
  {
    if NoDiscount(rate) then amount
    else amount - rate.value * amount
  }

  /** A rate between zero and one never raises a non-negative amount nor
      takes it below zero. */
  lemma DiscountWithinAmount(rate: Option<real>, amount: real)
    requires rate.Some? ==> 0.0 <= rate.value <= 1.0
    requires 0.0 <= amount
    ensures 0.0 <= Discounted(rate, amount) <= amount
  {
  }

  /** Nothing rejects a negative rate: on a positive amount it yields more
      than the amount, where the tests expect an error instead. */
  lemma NegativeRateRaisesAmount(rate: real, amount: real)
    requires rate < 0.0 && 0.0 < amount
    ensures Discounted(Some(rate), amount) > amount
  {
  }

  /** Nothing rejects a rate above one either: on a positive amount it
      yields a negative price. */
  lemma RateAboveOneGoesNegative(rate: real, amount: real)
    requires 1.0 < rate && 0.0 < amount
    ensures Discounted(Some(rate), amount) < 0.0
  {
    assert rate * amount > 1.0 * amount;
  }
}
