# ElCofre pricing and catalogue model

A Dafny model of the business core of ElCofre, a console marketplace where shops
sell products from their catalogues. The model covers:

- **Tax policy** (`Tax`): the `calculatePrice` rule of the three product classes
  (general 21%, reduced 5% or 10% depending on the average rating, super-reduced
  4% below a price of 100 and nothing from 100 on).
- **Discount policy** (`Discount`): the `calculateDiscount` rule of the three shop
  classes. Every shop first takes the tax out; only a sponsored shop then takes
  10% off, and only for its sponsor's brand, compared case-sensitively.
- **Products and the product registry** (`Products`): the `Product` object with
  its review list, and `ProductManager` (creation dispatched on a tag, lookup
  ignoring case, removal by index, the "some product's MRP" check, search,
  reviews).
- **Shops and the shop registry** (`Shops`): the `Shop` object with its
  catalogue, earnings and model, and `ShopManager`. It covers creation, the
  case-sensitive existence check beside the case-insensitive lookup, catalogue
  append, removal of the last matching entry, catalogue query and earnings
  update.
- **Catalogue queries** (`Dealer`): `DealerManager.getProductList` and
  `showInfoShops`.
- **Controller logic** (`Presentation`): `convertBrand`, `countStars`,
  `calculateAverageRating`, `getPriceProduct`, `isHabitualCustomer`, `emptyCart`,
  and the cart view and checkout of `showUserCart`.

Objects whose fields the program updates in place are Dafny classes:

- `Product`: its review list.
- `Shop`: earnings, catalogue, and the loyalty threshold or sponsor brand.
- `ProductManager` and `ShopManager`: their lists.
- `Controller`: the cart.

The product registry never holds one product object twice (`Valid`): its list
starts empty, only `createProduct` adds to it, always a new object, and only
`removeProduct` takes from it. Nothing loads it from the remote store.

Pure rules are functions over datatypes. Every loop of the source is a method
with a loop, proved against a function that specifies it. The lemmas then state
what the source promises about that function.

Each registry, and the dealer, has its own constant `connected` flag, fixed at
construction as the `ApiHelper` each of them creates fixes it. In local mode a query scans the registry's own
list. In connected mode it scans the list just loaded from the remote store, a
parameter `loaded` here. A remote save's success is a parameter `apiOk` wherever
it changes a result. Java's `null` is `null` for objects and `None` for the
optional sponsor brand and review list. Doubles are exact reals.

## Model

| member | source | states |
|---|---|---|
| Lists.RemoveAt | Business/Product/ProductManager.java:163 | `list.remove(i)` drops exactly the element at `i`; elements before keep their index, later ones move down by one |
| Lists.IndexOf | Business/Product/ProductManager.java:164 | the index `remove(Object)` uses is the first occurrence, -1 iff absent |
| Lists.RemoveFirst | Business/Product/ProductManager.java:164 | `list.remove(x)` removes the first occurrence of `x` and keeps the order of the rest (one element fewer, multiset minus {x}); it changes nothing when `x` is absent |
| Lists.RemoveAtKeepsDistinct | Business/Product/ProductManager.java:161-167 | removing at an index from a list without duplicates leaves no second copy of the removed object |
| Text.ToLower | Business/Product/ProductManager.java:240-242 | `toLowerCase` keeps the length and folds each ASCII letter |
| Text.EqualsIgnoreCase | Business/Product/ProductManager.java:128 | `equalsIgnoreCase` on ASCII text: equal after lower-casing; implied by `equals` (`ExactImpliesIgnoreCase`) and strictly coarser (`IgnoreCaseIsCoarser`) |
| Text.Contains | Business/Product/ProductManager.java:243-244 | `contains`: the query occurs as a contiguous block at some index; the empty query always does (`EmptyContained`) |
| Text.IgnoreCaseIsCoarser | Business/Shop/ShopManager.java:61 | `equalsIgnoreCase` accepts names that `equals` rejects ("Abc" and "abc") |
| Text.EmptyContained | Business/Product/ProductManager.java:243-244 | `contains("")` holds for every string |
| Text.FirstIgnoreCase | Business/Shop/ShopManager.java:158-163 | first-match scan: the index matches, no earlier name matches, and -1 iff nothing matches |
| Text.LastIgnoreCase | Business/Shop/ShopManager.java:203-207 | last-match scan: the index matches, no later name matches, and -1 iff nothing matches |
| Tax.TaxRate | Business/Product/ReducedProduct.java:44-50 | the applied rate is always one of 0, 4, 5, 10 or 21 percent |
| Tax.CalculatePrice | Business/Product/GeneralProduct.java:28-30 | the result taxed at the applicable rate gives the price back; it lies between 0 and the price, strictly below it when a positive rate applies |
| Tax.GeneralExample | Business/Product/GeneralProduct.java:29 | a general product priced 121 is 100 without tax |
| Tax.ReducedExamples | Business/Product/ReducedProduct.java:45-48 | with rating 4.0, 105 maps to 100; with rating 3.0 or exactly 3.5, 110 maps to 100 |
| Tax.SuperReducedExamples | Business/Product/SuperReducedProduct.java:35-42 | 100 and 104 are left unchanged and 52 maps to 50 |
| Tax.ReducedHighRatingNotCheaper | Business/Product/ReducedProduct.java:45-49 | a rating above 3.5 never gives a lower tax-free price than one at or below it, and both stay at most the price |
| Tax.SuperReducedBelowThreshold | Business/Product/SuperReducedProduct.java:38-41 | below 100 the super-reduced result stays below 100 |
| Tax.Monotone | Business/Product/SuperReducedProduct.java:35-42 | every category's price is non-decreasing, across the super-reduced jump at 100 |
| Tax.StrictlyMonotone | Business/Product/SuperReducedProduct.java:35-42 | every category's price is strictly increasing, across the super-reduced jump at 100 too |
| Discount.CalculateDiscount | Business/Shop/SponsoredShop.java:39-46 | the final price lies between 0 and the tax-free price (itself at most the price), is strictly below it on a sponsor match with a positive price, and is either the tax-free price or 90% of it |
| Discount.SponsorMatch | Business/Shop/SponsoredShop.java:40 | a discount applies only for a sponsored shop whose brand is present and equals the product's brand exactly |
| Discount.NoDiscountWithoutSponsorMatch | Business/Shop/MaxProfitShop.java:27-29 | without a sponsor match every shop charges exactly the tax-free price |
| Discount.SponsorMatchTakesTenPercent | Business/Shop/SponsoredShop.java:40-41 | an exact brand match charges exactly 90% of the tax-free price |
| Discount.ShopParametersIrrelevant | Business/Shop/LoyaltyShop.java:44-47 | a loyalty shop's price does not depend on its threshold and equals a max-profit shop's |
| Discount.NoMatchForNull | Business/Shop/SponsoredShop.java:40 | a null sponsor brand matches no product brand |
| Discount.CaseOnlyNeverMatches | Business/Shop/SponsoredShop.java:40 | a sponsor brand equal to the product's brand only ignoring case never matches |
| Products.Product.GeneralProduct | Business/Product/GeneralProduct.java:18-20 | a new general product stores its fields, has tag "GENERAL" and an empty review list |
| Products.Product.ReducedProduct | Business/Product/ReducedProduct.java:33-36 | a new reduced product keeps its average rating, has tag "REDUCED" and an empty review list |
| Products.Product.SuperReducedProduct | Business/Product/SuperReducedProduct.java:25-27 | a new super-reduced product has tag "SUPER_REDUCED" and an empty review list |
| Products.Product.AddReview | Business/Product/Product.java:67-69 | the review is appended at the end; earlier reviews keep their order |
| Products.Product.SetReviews | Business/Product/Product.java:75-77 | the review list is replaced by the given one |
| Products.Lookup | Business/Product/ProductManager.java:141-154 | the product found is in the list and matches ignoring case; null iff no product matches |
| Products.MatchProduct | Business/Product/ProductManager.java:239-246 | the lower-cased query occurs in the lower-cased name or in the lower-cased brand |
| Products.Matching | Business/Product/ProductManager.java:216-229 | the search result holds only matching products of the list, has every matching product, and is no longer than the list |
| Products.EmptyQueryMatchesAll | Business/Product/ProductManager.java:239-246 | an empty query returns the whole list in order |
| Products.MatchingAppend | Business/Product/ProductManager.java:224-228 | searching a concatenation is searching each part, so list order is kept |
| Products.TagsExclusive | Business/Product/ProductManager.java:71-86 | at most one of the three tags matches, so at most one product is created |
| Products.TagRoundTrip | Business/Product/ProductManager.java:71-86 | the tag a product constructor stores selects that same category again, in any case |
| Products.LowercaseTagAccepted | Business/Product/ProductManager.java:76 | "reduced" in lower case creates a reduced product |
| Products.ParseCategory | Business/Product/ProductManager.java:70-86 | the category a tag creates, tried in the source's order; a category it selects has a stored tag equal to the input ignoring case, and an unknown tag selects none |
| Products.ProductManager.constructor | Business/Product/ProductManager.java:25-30 | the registry starts empty |
| Products.ProductManager.CreateProduct | Business/Product/ProductManager.java:42-88 | a recognised tag appends exactly one fresh product of that category with the given fields; an unknown tag leaves the list unchanged and returns true; a failed remote save returns false |
| Products.ProductManager.NameProductExists | Business/Product/ProductManager.java:119-133 | true iff some product's name equals the query ignoring case |
| Products.ProductManager.GetProductByName | Business/Product/ProductManager.java:141-154 | returns the first product whose name equals the query ignoring case, null iff none |
| Products.ProductManager.RemoveProduct | Business/Product/ProductManager.java:161-167 | an index in range removes that element and then the first further occurrence of the same object, which for a registry without duplicates leaves exactly `RemoveAt`; an out-of-range index changes nothing |
| Products.ProductManager.PriceProductExceed | Business/Product/ProductManager.java:186-209 | true iff some product's MRP is at least the price (false on an empty list) |
| Products.ProductManager.SearchProducts | Business/Product/ProductManager.java:216-246 | exactly the matching products, in list order |
| Products.ProductManager.AddProductReview | Business/Product/ProductManager.java:255-267 | a null review list becomes empty first; the review is appended at the end |
| Shops.Shop.MaxProfitShop | Business/Shop/MaxProfitShop.java:17-19 | a new shop has zero earnings, the given catalogue and tag "MAX_PROFIT" |
| Shops.Shop.LoyaltyShop | Business/Shop/LoyaltyShop.java:20-23 | a new loyalty shop keeps its threshold, has zero earnings and tag "LOYALTY" |
| Shops.Shop.SponsoredShop | Business/Shop/SponsoredShop.java:20-23 | a new sponsored shop keeps its brand, has zero earnings and tag "SPONSORED" |
| Shops.Shop.AddToCatalogue | Business/Shop/Shop.java:73-76 | one entry is appended at the end, without a duplicate check; nothing else changes |
| Shops.Shop.SetEarnings | Business/Shop/Shop.java:81-83 | earnings become exactly the value; nothing else changes |
| Shops.Shop.SetLoyaltyThreshold | Business/Shop/LoyaltyShop.java:35-37 | the threshold is replaced; nothing else changes |
| Shops.Shop.SetSponsorBrand | Business/Shop/SponsoredShop.java:28-30 | the sponsor brand is replaced; nothing else changes |
| Shops.FindIn | Business/Shop/ShopManager.java:151-164 | the shop found is in the list and matches ignoring case; null iff no shop matches |
| Shops.NameIn | Business/Shop/ShopManager.java:52-66 | the `nameShopExists` answer over a list: some shop's name equals the query exactly |
| Shops.NameInImpliesFound | Business/Shop/ShopManager.java:196-199 | a name passing the case-sensitive existence check is always found by the case-insensitive lookup |
| Shops.ModelTagsExclusive | Business/Shop/ShopManager.java:116-133 | at most one of the three tags matches, so at most one shop is created |
| Shops.ModelTagRoundTrip | Business/Shop/ShopManager.java:116-133 | the tag a shop constructor stores selects that same model again, in any case |
| Shops.ParseModel | Business/Shop/ShopManager.java:116-133 | the model a tag creates, with the threshold or brand; a model it selects has a stored tag equal to the input ignoring case, and an unknown tag selects none |
| Shops.RemoveLastNamedSpec | Business/Shop/ShopManager.java:200-208 | with no match the catalogue is unchanged; otherwise one matching entry goes, no later entry matches, and the rest keep their order |
| Shops.RemoveLastOfDuplicates | Business/Shop/ShopManager.java:203-208 | of two entries for one product the later is removed and the earlier survives |
| Shops.RemoveLastNamed | Business/Shop/ShopManager.java:200-208 | the catalogue after the scan and removal: the last entry matching ignoring case is taken out, nothing when none matches |
| Shops.ShopManager.constructor | Business/Shop/ShopManager.java:25-31 | the registry starts empty |
| Shops.ShopManager.NameShopExists | Business/Shop/ShopManager.java:52-66 | true iff some shop's name equals the query exactly (case-sensitive) |
| Shops.ShopManager.FindShopByName | Business/Shop/ShopManager.java:151-164 | returns the first shop whose name equals the query ignoring case, null iff none |
| Shops.ShopManager.CreateShop | Business/Shop/ShopManager.java:79-136 | a recognised tag appends one fresh shop with zero earnings, the given catalogue, and the threshold or brand of its model (connected: after the loaded list); an unknown tag adds nothing and returns true; a failed remote save returns false |
| Shops.ShopManager.AddToCatalogue | Business/Shop/ShopManager.java:173-189 | with no matching shop returns false; otherwise only that shop's catalogue gains one entry at the end, and the result is true unless the remote save failed |
| Shops.ShopManager.RemoveFromJsonCatalogue | Business/Shop/ShopManager.java:196-221 | nothing changes unless the name passes the case-sensitive check; then the shop found loses its last matching entry and every other shop's catalogue is unchanged |
| Shops.ShopManager.RemoveLastMatch | Business/Shop/ShopManager.java:200-208 | the shop found loses exactly the entry the last-match scan picks: its catalogue becomes `RemoveLastNamed` of the old one |
| Shops.ShopManager.LastMatchIndex | Business/Shop/ShopManager.java:201-207 | the scan ends on the index of the last entry matching ignoring case, -1 when none |
| Shops.ShopManager.GetCatalogueFromShop | Business/Shop/ShopManager.java:228-235 | the matched shop's catalogue, or empty when no shop matches |
| Shops.ShopManager.UpdateEarnings | Business/Shop/ShopManager.java:242-261 | a non-null shop's earnings grow by the price, and only its earnings may change; a null shop is a no-op locally |
| Dealer.Resolve | Business/DealerManager.java:39-46 | the products listed are all registry products and are at most one per catalogue entry |
| Dealer.ResolveAppend | Business/DealerManager.java:40-46 | resolving a concatenation resolves each part, so catalogue order is kept |
| Dealer.ResolveAll | Business/DealerManager.java:40-46 | when every entry resolves, the result has one product per entry, position by position |
| Dealer.DuplicateEntriesRepeat | Business/DealerManager.java:40-45 | a product listed twice in a catalogue is returned twice |
| Dealer.CountNamedPositive | Business/DealerManager.java:71-76 | a shop's count of matching entries is positive iff some entry names the product ignoring case |
| Dealer.ShopsSelling | Business/DealerManager.java:68-78 | in list order, each shop repeated once per catalogue entry naming the product ignoring case |
| Dealer.ShopsSellingMembership | Business/DealerManager.java:70-77 | a shop is in the answer iff it is registered and has a catalogue entry naming the product ignoring case |
| Dealer.ShopsSellingCount | Business/DealerManager.java:70-77 | over distinct shops, each listed shop occurs in the answer exactly as often as its catalogue has entries naming the product ignoring case, and no unlisted shop occurs |
| Dealer.DealerManager.GetProductList | Business/DealerManager.java:34-50 | empty unless the name passes the case-sensitive check; otherwise the resolved products of that shop's catalogue in order, unresolved entries skipped |
| Dealer.DealerManager.constructor | Business/DealerManager.java:22-26 | the dealer keeps both registries and its own connection flag |
| Dealer.DealerManager.ShowInfoShops | Business/DealerManager.java:58-79 | over the remote list when the dealer's own flag says connected and the registry's list otherwise, in list order, each shop once per catalogue entry naming the product ignoring case |
| Dealer.DealerManager.MatchingEntries | Business/DealerManager.java:71-76 | the inner loop yields the shop once per catalogue entry naming the product ignoring case, that is `CountNamed` copies |
| Presentation.JavaSplit | Presentation/Controller.java:238 | no piece of `split(" ")` holds a space; with `SplitJoin` below, a non-empty text of single-space-separated words splits back into exactly those words |
| Presentation.JoinCons | Presentation/Controller.java:241-243 | joining words puts one space after the first word and none before it |
| Presentation.SplitJoin | Presentation/Controller.java:238 | splitting at spaces undoes joining by single spaces, for any non-empty list of space-free words |
| Presentation.JoinSplit | Presentation/Controller.java:238 | rejoining the pieces of a split at every space by single spaces gives back the string itself, for every string |
| Presentation.JavaSplitJoin | Presentation/Controller.java:238 | `split(" ")` of non-empty space-free words joined by single spaces gives back exactly those words |
| Presentation.LowerJoin | Presentation/Controller.java:238 | lower-casing a brand of joined words is joining the lower-cased words |
| Presentation.ConvertBrandTitleCase | Presentation/Controller.java:236-250 | a brand of non-empty words separated by single spaces converts to those words lower-cased, first letter upper-cased, joined by single spaces |
| Presentation.FoldTitleCase | Presentation/Controller.java:239-247 | without empty pieces the loop title-cases: the capitalised words joined by single spaces, with no trailing space |
| Presentation.EmptyPieceDeletes | Presentation/Controller.java:239-247 | an empty piece deletes the last character built so far, and throws on an empty buffer |
| Presentation.EmptyBrandThrows | Presentation/Controller.java:238-247 | the empty brand throws |
| Presentation.LeadingSpaceThrows | Presentation/Controller.java:238-247 | a leading space throws |
| Presentation.TitleCaseExample | Presentation/Controller.java:236-250 | "NIKE air" becomes "Nike Air" |
| Presentation.DoubledSpaceExample | Presentation/Controller.java:236-250 | "nike  air" becomes "Nik Air": the doubled space eats a letter |
| Presentation.OnlySpacesExample | Presentation/Controller.java:236-250 | a brand of spaces only converts to the empty string |
| Presentation.ConvertBrandOf | Presentation/Controller.java:236-250 | `convertBrand` as a fold of one loop pass per piece of the lower-cased brand split at spaces, None where `setLength(-1)` throws; `ConvertBrandTitleCase` proves it title-cases every brand of single-space-separated words |
| Presentation.Stars | Presentation/Controller.java:478-488 | the answer is the length iff every character is '*', otherwise -1 |
| Presentation.AcceptedRatings | Presentation/Controller.java:478-488 | an answer counts as one to five stars exactly when it is 1 to 5 characters, all '*' |
| Presentation.RoundingError | Presentation/Controller.java:457 | rounding to two decimals moves a value by at most half a hundredth |
| Presentation.AverageInStarRange | Presentation/Controller.java:448-458 | with ratings from 1 to 5 a non-empty review list averages between 1.0 and 5.0 |
| Presentation.UniformAverage | Presentation/Controller.java:448-458 | reviews that all give one rating average to exactly that rating |
| Presentation.RatingTotal | Presentation/Controller.java:452-455 | the sum of the review ratings, bounded by the count and five times the count in `AverageInStarRange` |
| Presentation.RoundHundredths | Presentation/Controller.java:457 | `Math.round(x * 100.0) / 100.0` over exact reals, within half a hundredth of `x` by `RoundingError` |
| Presentation.AverageRating | Presentation/Controller.java:448-458 | 0.0 without reviews, otherwise the integer rating total over the count, rounded half-up to two decimals |
| Presentation.PriceAtLastMatch | Presentation/Controller.java:464-472 | the price charged is that of the last entry matching ignoring case, 0.0 when none matches |
| Presentation.LastEntryPriceWins | Presentation/Controller.java:466-470 | with two entries for one product, the later one's price is charged |
| Presentation.PriceAt | Presentation/Controller.java:464-472 | the price of the last catalogue entry naming the product ignoring case, 0.0 when none does |
| Presentation.IsHabitualCustomer | Presentation/Controller.java:680-685 | only a loyalty shop whose earnings have reached its threshold has a habitual customer; any other shop, or none, does not |
| Presentation.ShownPrice | Presentation/Controller.java:612-616 | the price the cart view shows for a line: the discounted price for a habitual customer, the raw catalogue price otherwise; related to the posted amount by `ShownVersusPosted` |
| Presentation.PostedAmount | Presentation/Controller.java:640-641 | what checkout posts for a line: the shop's discounted, tax-free price of the product, never above the shown price by `ShownVersusPosted` |
| Presentation.ShownVersusPosted | Presentation/Controller.java:612-616 | a habitual customer is shown the posted (tax-free) price; everyone else sees the raw price, never below the posted one and above it for a taxed general product |
| Presentation.ViewFailurePersists | Presentation/Controller.java:606-622 | once the cart view has thrown on a prefix it throws on the whole cart |
| Presentation.ViewLength | Presentation/Controller.java:606-622 | a cart whose lines all resolve shows one price per line |
| Presentation.ViewPrices | Presentation/Controller.java:606-622 | the prices the cart view shows, in cart order: unresolved products are skipped, a resolved product whose shop does not resolve throws (None) |
| Presentation.PostedToOthersIsZero | Presentation/Controller.java:636-649 | a shop no resolving line names receives nothing |
| Presentation.PostedTo | Presentation/Controller.java:636-649 | what checkout adds to one shop: the posted amount of each line whose product resolves and whose shop name resolves to that shop |
| Presentation.PostedShopNames | Presentation/Controller.java:642 | the keys of the per-shop totals: the shop names of the lines whose product and shop both resolve, characterised by `PostedShopNamesMembership` |
| Presentation.PostedShopNamesMembership | Presentation/Controller.java:636-649 | a shop name is a key of the per-shop totals iff some line carries it and resolves both its product and its shop |
| Presentation.PostedShopNamesResolve | Presentation/Controller.java:650-651 | every key of the per-shop totals resolves to a shop, so the announcement loop never dereferences null |
| Presentation.Controller.ConvertBrand | Presentation/Controller.java:236-250 | the StringBuilder loop computes the title-casing fold, None where `setLength(-1)` throws |
| Presentation.Controller.AppendWord | Presentation/Controller.java:240-246 | one loop pass: a non-empty word is appended capitalised after a separating space; an empty piece cuts the last character, throwing on an empty buffer |
| Presentation.Controller.CountStars | Presentation/Controller.java:478-488 | the loop returns the number of stars, or -1 at the first other character |
| Presentation.Controller.CalculateAverageRating | Presentation/Controller.java:448-458 | 0.0 for no reviews, else the mean rating rounded half-up to two decimals, which lies in [1, 5] when every rating does |
| Presentation.Controller.GetPriceProduct | Presentation/Controller.java:464-472 | the loop returns the last matching entry's price, 0.0 when none |
| Presentation.Controller.EmptyCart | Presentation/Controller.java:689-697 | the cart ends empty |
| Presentation.Controller.ShownLine | Presentation/Controller.java:609-617 | one line of the view: its product and shop as the registries resolve them and, when both resolve, the shown price |
| Presentation.Controller.ShowCart | Presentation/Controller.java:606-622 | the shown prices are the view of the cart (None where it throws on an unresolved shop), and the total is their sum |
| Presentation.Controller.PricedLine | Presentation/Controller.java:637-646 | a line posts to the shop it resolves to only when its product resolves too, at the shop's discounted tax-free price |
| Presentation.Controller.PostLine | Presentation/Controller.java:643-648 | one posting: the line's shop gains the posted amount and no other shop's earnings change |
| Presentation.Controller.PostEarnings | Presentation/Controller.java:636-649 | after the loop every shop's earnings grew by exactly what the cart posts to it, and the keys collected are the posted shop names |
| Presentation.Controller.RegularAt | Presentation/Controller.java:650-658 | one entry of the announcement loop: its shop, and whether the message fires (flag down and a habitual loyalty shop) |
| Presentation.Controller.AnnounceRegulars | Presentation/Controller.java:650-659 | at most one shop is announced; it is a posted shop whose customer is now habitual; with none announced no posted shop is habitual |
| Presentation.Controller.Checkout | Presentation/Controller.java:626-663 | "YES" in any case posts every resolving line to its shop's earnings, announces at most one newly or still habitual loyalty shop, and empties the cart; any other answer changes neither earnings nor the cart |

## Left out

- The persistence layer (JSON files, the HTTP client and its DAOs), the console
  UI, menus and `Main`: they are I/O. Saves are dropped; a remote save's outcome
  is the parameter `apiOk` where it changes a return value.
- The remote removal path `confirmationApiRemove` and `removeProductFromApi`:
  remote I/O.
- Connected mode reloads the remote list on every query. The model gives one
  loaded list per operation, so the list cannot change between two queries
  inside one operation.
- Products.Product: the review list is a value. In the source `getReviews` hands
  out the live list and `setReviews` stores the caller's own list, so both are
  shared with callers. That aliasing is not modelled.
- Shops.Shop: the catalogue is a value. The source shares the constructor's
  list with the caller, and `getCatalogue` hands out the live list. That
  aliasing is not modelled.
- Presentation.Controller.Checkout: modelled as a standalone operation on the
  cart. The source reaches it only after the cart view, which throws first when
  a resolving product's shop does not resolve. It also never runs on an empty
  cart, which only skips the view.
- Presentation.Controller.ShowCart: the totals keyed by shop (`shopEarningsMap`)
  are built but never read. The printed lines and totals are not modelled.
- The checkout's per-shop totals map is represented by its key set. The totals
  are only printed. The iteration order of the `HashMap` is left open: a key is
  chosen nondeterministically at each step.
- The loop bodies of the cart view, the posting loop, the announcement loop,
  `convertBrand` and `removeFromJsonCatalogue` are written as helper methods:
  ShownLine, PricedLine, PostLine, RegularAt, AppendWord, RemoveLastMatch and
  LastMatchIndex. The inner loop of `showInfoShops` is MatchingEntries.
- `CartManager` only holds the cart list; it is the `cart` field of `Controller`.
- Doubles are exact reals: IEEE-754 rounding is not modelled, and `Math.round`
  is `Floor(x * 100 + 0.5) / 100`. `int` sums of ratings do not overflow in the
  model.
- Case folding is ASCII only: the default locale of `toLowerCase` and
  `equalsIgnoreCase` is not modelled.
- Shops.ShopManager.UpdateEarnings: in connected mode the source reads the
  shop's earnings inside a `try` whose `catch` takes only `ApiException`, so a
  null shop throws a `NullPointerException` out of the method. The model requires
  a non-null shop when connected. A failed remote update keeps the local change
  and only prints, so `apiOk` plays no part.
