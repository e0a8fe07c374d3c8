/** Values shared by several parts of the storefront model. */
module Common {

  /** JavaScript's `null`/`undefined` versus a present value. */
  datatype Option<+T> = None | Some(value: T)

  /**
   * A catalog product, as listed in the shop page and spread into cart lines.
   * Prices are whole cents (79.99 is 7999); ratings are exact decimals.
   */
  datatype Product = Product(
    id: int,
    name: string,
    price: int,
    category: string,
    rating: real,
    reviews: nat,
    inStock: bool)
}
