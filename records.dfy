/** The small value records shared by products, shops and the cart. */
module Records {

  /** A product review: a star rating and a free-text comment. */
  datatype Review = Review(rating: int, comment: string)

  /** One line of a shop's catalogue: a product, by name, and its price at that shop. */
  datatype CatalogueEntry = CatalogueEntry(productName: string, priceAtShop: real)

  /** One cart line: a product and the shop it is bought from, both by name. */
  datatype CartLine = CartLine(productName: string, shopName: string)
}
