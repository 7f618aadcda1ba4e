/** Tax policy: how a product's category turns a catalogue price into the price
    without tax (the `calculatePrice` overrides of the three product classes). */
module Tax {

  /** The three product classes; a reduced product carries its final average rating. */
  datatype Category = General | Reduced(averageRating: real) | SuperReduced

  const GENERAL_TAX: real := 21.0
  const REDUCED_TAX_RATE: real := 10.0
  const REDUCED_TAX_RATE_REDUCED_PRICE: real := 5.0
  const MINIMUM_AVERAGE_RATING: real := 3.5
  const SUPER_REDUCED_TAX_RATE: real := 4.0
  const SUPER_REDUCED_TAX_RATE_THRESHOLD: real := 100.0

  /** The `category` string a product constructor stores. */
  function CategoryTag(c: Category): string
  {
    match c
    case General => "GENERAL"
    case Reduced(_) => "REDUCED"
    case SuperReduced => "SUPER_REDUCED"
  }

  /** The tax percentage a category applies to a given price. */
  function TaxRate(c: Category, price: real): (rate: real)
    ensures rate in {0.0, 4.0, 5.0, 10.0, 21.0}
  {
    match c
    case General => GENERAL_TAX
    case Reduced(avg) =>
      if avg > MINIMUM_AVERAGE_RATING then REDUCED_TAX_RATE_REDUCED_PRICE else REDUCED_TAX_RATE
    case SuperReduced =>
      if price >= SUPER_REDUCED_TAX_RATE_THRESHOLD then 0.0 else SUPER_REDUCED_TAX_RATE
  }

  /** `calculatePrice`: the price with the category's tax taken out. The result is
      the amount which, taxed at the applicable rate, gives back `price`. */
  function CalculatePrice(c: Category, price: real): (r: real)
    ensures r * (1.0 + TaxRate(c, price) / 100.0) == price
    ensures price >= 0.0 ==> 0.0 <= r <= price
    ensures price > 0.0 && TaxRate(c, price) > 0.0 ==> r < price
  {
    match c
    case General => price / (1.0 + GENERAL_TAX / 100.0)
    case Reduced(avg) =>
      if avg > MINIMUM_AVERAGE_RATING then price / (1.0 + REDUCED_TAX_RATE_REDUCED_PRICE / 100.0)
      else price / (1.0 + REDUCED_TAX_RATE / 100.0)
    case SuperReduced =>
      if price >= SUPER_REDUCED_TAX_RATE_THRESHOLD then price
      else price / (1.0 + SUPER_REDUCED_TAX_RATE / 100.0)
  }

  lemma GeneralExample()
    ensures CalculatePrice(General, 121.0) == 100.0
  {
  }

  lemma ReducedExamples()
    ensures CalculatePrice(Reduced(4.0), 105.0) == 100.0
    ensures CalculatePrice(Reduced(3.0), 110.0) == 100.0
    ensures CalculatePrice(Reduced(3.5), 110.0) == 100.0
  {
  }

  lemma SuperReducedExamples()
    ensures CalculatePrice(SuperReduced, 100.0) == 100.0
    ensures CalculatePrice(SuperReduced, 104.0) == 104.0
    ensures CalculatePrice(SuperReduced, 52.0) == 50.0
  {
  }

  /** The rate a reduced product gets is decided by its rating alone; a rating
      above 3.5 never yields a higher price than one at or below it. */
  lemma ReducedHighRatingNotCheaper(hi: real, lo: real, price: real)
    requires hi > MINIMUM_AVERAGE_RATING >= lo
    requires price >= 0.0
    ensures CalculatePrice(Reduced(lo), price) <= CalculatePrice(Reduced(hi), price) <= price
  {
  }

  /** Below the threshold the super-reduced price stays below the threshold. */
  lemma SuperReducedBelowThreshold(price: real)
    requires price < SUPER_REDUCED_TAX_RATE_THRESHOLD
    ensures CalculatePrice(SuperReduced, price) < SUPER_REDUCED_TAX_RATE_THRESHOLD
  {
  }

  /** Every category is non-decreasing in the price, the super-reduced jump at
      100 included. */
  lemma Monotone(c: Category, p: real, q: real)
    requires p <= q
    ensures CalculatePrice(c, p) <= CalculatePrice(c, q)
  {
    if c.SuperReduced? && p < SUPER_REDUCED_TAX_RATE_THRESHOLD <= q {
      assert CalculatePrice(c, p) < SUPER_REDUCED_TAX_RATE_THRESHOLD;
    }
  }

  /** Every category is strictly increasing in the price: the super-reduced jump
      at 100 goes up, since below 100 the result stays below 100. */
  lemma StrictlyMonotone(c: Category, p: real, q: real)
    requires p < q
    ensures CalculatePrice(c, p) < CalculatePrice(c, q)
  {
  }
}
