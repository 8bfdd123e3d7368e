/**
 * The two price formulas the screens display. Prices and discount
 * percentages are exact reals here; the source's binary floating point and
 * its two-decimal display rounding are not modelled.
 */
module Pricing {

  /** The price after the discount: `price - (price * discountPercentage) / 100`. */
  function DiscountedPrice(price: real, discountPercentage: real): (r: real)
    ensures price >= 0.0 && 0.0 <= discountPercentage <= 100.0 ==> 0.0 <= r <= price
    ensures discountPercentage == 0.0 ==> r == price
    ensures price > 0.0 && discountPercentage > 0.0 ==> r < price
  {
    price - (price * discountPercentage) / 100.0
  }

  /** The "was" price shown next to the current one:
      `price + (price * discountPercentage) / 100`. */
  function OriginalPrice(price: real, discountPercentage: real): (r: real)
    ensures price >= 0.0 && discountPercentage >= 0.0 ==> r >= price
    ensures r == price <==> price == 0.0 || discountPercentage == 0.0
  {
    price + (price * discountPercentage) / 100.0
  }
}
