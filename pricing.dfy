/**
 * The price arithmetic both booking pages show: a subtotal of price times quantity, a
 * 6% tax on it, and on checkout the applied promo's discount taken off.
 */
module Pricing {
  import opened Wrappers
  import opened Types

  /** The tax rate, 6%. */
  const TaxRate: real := 0.06

  function Subtotal(price: real, quantity: int): real {
    price * quantity as real
  }

  function Taxes(subtotal: real): real {
    subtotal * TaxRate
  }

  /** The details page's total: subtotal and taxes, no discount. */
  function SummaryTotal(price: real, quantity: int): real {
    var subtotal := Subtotal(price, quantity);
    subtotal + Taxes(subtotal)
  }

  /** `appliedPromo?.data?.discount_amount || 0`: the amount of an applied promo that
      carries data, otherwise 0. A zero amount is falsy and gives 0, which is the amount
      itself, so on exact reals `|| 0` changes nothing once the data is there. */
  function Discount(applied: Option<PromoCodeValidation>): (d: real)
    ensures applied.None? ==> d == 0.0
    ensures applied.Some? && applied.value.data.Some? ==> d == applied.value.data.value.discount_amount
    ensures applied.Some? && applied.value.data.None? ==> d == 0.0
  {
    match applied
    case None => 0.0
    case Some(v) =>
      match v.data
      case None => 0.0
      case Some(p) => p.discount_amount
  }

  /** The checkout total: subtotal plus taxes minus the discount. */
  function CheckoutTotal(price: real, quantity: int, applied: Option<PromoCodeValidation>): real {
    var subtotal := Subtotal(price, quantity);
    subtotal + Taxes(subtotal) - Discount(applied)
  }

  /** Both totals are 106% of price times quantity, less the discount at checkout. */
  lemma TotalsInClosedForm(price: real, quantity: int, applied: Option<PromoCodeValidation>)
    ensures SummaryTotal(price, quantity) == price * quantity as real * 1.06
    ensures CheckoutTotal(price, quantity, applied) == price * quantity as real * 1.06 - Discount(applied)
  {
  }

  /** Without a promo the checkout total is the total the details page showed. */
  lemma CheckoutMatchesSummaryWithoutPromo(price: real, quantity: int, applied: Option<PromoCodeValidation>)
    requires applied.None? || applied.value.data.None?
    ensures CheckoutTotal(price, quantity, applied) == SummaryTotal(price, quantity)
  {
  }

  /** A promo whose discount is at most the subtotal leaves at least the taxes to pay. */
  lemma DiscountBoundedBySubtotal(price: real, quantity: int, applied: Option<PromoCodeValidation>)
    requires price >= 0.0 && quantity >= 0
    requires 0.0 <= Discount(applied) <= Subtotal(price, quantity)
    ensures Taxes(Subtotal(price, quantity)) <= CheckoutTotal(price, quantity, applied) <= SummaryTotal(price, quantity)
  {
  }

  /** Two tickets at 1000 cost 2120; with 200 off, 1920. */
  lemma WorkedExample()
    ensures SummaryTotal(1000.0, 2) == 2120.0
    ensures CheckoutTotal(1000.0, 2, Some(PromoCodeValidation(
      Some(PromoCodeData("SAVE10", "", Percentage, 10.0, 200.0, 2000.0, 1800.0)), true, None))) == 1920.0
  {
  }
}
