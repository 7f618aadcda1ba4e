/** Discount policy: the `calculateDiscount` overrides of the three shop classes.
    Every model first takes the product's tax out (Tax.CalculatePrice); only a
    sponsored shop then takes 10% off, and only for its sponsor's brand. */
module Discount {
  import opened Lists
  import opened Tax
  import opened Text
  import Products

  /** The three shop classes with their own parameter: a loyalty shop's threshold,
      a sponsored shop's brand (None is the Java null). */
  datatype Model = MaxProfit | Loyalty(loyaltyThreshold: real) | Sponsored(sponsorBrand: Option<string>)

  const SPONSOR_FACTOR: real := 0.9

  /** The `businessModel` string a shop constructor stores. */
  function ModelTag(m: Model): string
  {
    match m
    case MaxProfit => "MAX_PROFIT"
    case Loyalty(_) => "LOYALTY"
    case Sponsored(_) => "SPONSORED"
  }

  /** `product.getBrand().equals(sponsorBrand)`: exact and case-sensitive; a null
      sponsor brand never matches. */
  predicate SponsorMatch(m: Model, brand: string)
  {
    m.Sponsored? && m.sponsorBrand == Some(brand)
  }

  /** `calculateDiscount(price, product)`: the final price of a catalogue price. */
  function CalculateDiscount(m: Model, price: real, product: Products.Product): (r: real)
    ensures price >= 0.0 ==> 0.0 <= r <= CalculatePrice(product.category, price) <= price
    ensures SponsorMatch(m, product.brand) && price > 0.0 ==> r < CalculatePrice(product.category, price)
    ensures r == CalculatePrice(product.category, price) || r == CalculatePrice(product.category, price) * SPONSOR_FACTOR
  {
    match m
    case MaxProfit => CalculatePrice(product.category, price)
    case Loyalty(_) => CalculatePrice(product.category, price)
    case Sponsored(brand) =>
      if brand == Some(product.brand) then CalculatePrice(product.category, price) * SPONSOR_FACTOR
      else CalculatePrice(product.category, price)
  }

  /** Without a sponsor match the final price is exactly the tax-free price: a
      max-profit or loyalty shop never discounts, whatever its threshold. */
  lemma NoDiscountWithoutSponsorMatch(m: Model, price: real, product: Products.Product)
    requires !SponsorMatch(m, product.brand)
    ensures CalculateDiscount(m, price, product) == CalculatePrice(product.category, price)
  {
  }

  /** A sponsor match takes exactly 10% off the tax-free price. */
  lemma SponsorMatchTakesTenPercent(m: Model, price: real, product: Products.Product)
    requires SponsorMatch(m, product.brand)
    ensures CalculateDiscount(m, price, product) == CalculatePrice(product.category, price) * 0.9
  {
  }

  /** The result does not depend on a loyalty shop's threshold, nor on which of the
      two non-discounting models the shop has. */
  lemma ShopParametersIrrelevant(t1: real, t2: real, price: real, product: Products.Product)
    ensures CalculateDiscount(Loyalty(t1), price, product) == CalculateDiscount(Loyalty(t2), price, product)
    ensures CalculateDiscount(Loyalty(t1), price, product) == CalculateDiscount(MaxProfit, price, product)
  {
  }

  /** A null sponsor brand gives no discount, whatever the product's brand. */
  lemma NoMatchForNull(brand: string)
    ensures !SponsorMatch(Sponsored(None), brand)
  {
  }

  /** A sponsor brand that equals the product's brand only ignoring case gives no
      discount: the comparison is exact. */
  lemma CaseOnlyNeverMatches(sponsor: string, brand: string)
    requires EqualsIgnoreCase(sponsor, brand) && sponsor != brand
    ensures !SponsorMatch(Sponsored(Some(sponsor)), brand)
  {
  }
}
