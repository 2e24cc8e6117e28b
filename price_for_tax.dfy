/** Which price the tax is computed on. `hostRound` is the host's currency rounding. */
module PriceForTax {
  import opened Wrappers
  import opened QuoteData

  /** The row value before tax and discount: the host-rounded unit price times quantity. */
  function OriginalItemPriceOnQuote(item: QuoteItem, hostRound: real -> real): real
  {
    hostRound(RowValue(item))
  }

  /** The original price depends on the unit price and the quantity only: neither the
      discount nor the price override for tax enters it. */
  lemma OriginalPriceIgnoresDiscountAndOverride(a: QuoteItem, b: QuoteItem, hostRound: real -> real)
    requires a.unitPrice == b.unitPrice && a.quantity == b.quantity
    ensures OriginalItemPriceOnQuote(a, hostRound) == OriginalItemPriceOnQuote(b, hostRound)
  {
    assert RowValue(a) == RowValue(b);
  }

  /** The host-rounded price override when it is set and non-zero (PHP truthiness of a
      float), otherwise `price`. */
  function PriceForTaxFromQuoteItem(item: QuoteItem, price: real, hostRound: real -> real): (r: real)
    ensures item.priceForTaxCalculation.Some? && item.priceForTaxCalculation.value != 0.0 ==>
              r == hostRound(item.priceForTaxCalculation.value)
    ensures item.priceForTaxCalculation.None? || item.priceForTaxCalculation.value == 0.0 ==> r == price
  {
    match item.priceForTaxCalculation
    case Some(p) => if p != 0.0 then hostRound(p) else price
    case None => price
  }

  /** The order item's original price when it exceeds `price` and the store applies tax on
      the original price; otherwise `price`. A null original price never compares greater
      (PHP compares null with a number as booleans, and `false > x` is false). */
  function PriceForTaxFromOrderItem(originalPrice: Option<real>, price: real, applyTaxOnOriginalPrice: bool): (r: real)
    ensures r >= price
    ensures r == price || (originalPrice.Some? && r == originalPrice.value)
    ensures r != price <==> applyTaxOnOriginalPrice && originalPrice.Some? && originalPrice.value > price
  {
    match originalPrice
    case Some(o) => if o > price && applyTaxOnOriginalPrice then o else price
    case None => price
  }
}
