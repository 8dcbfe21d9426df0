/** Products as the REST backend serves them to the shop, the cart and the wishlist.
    Prices are in minor units. */
module Catalog {
  import opened Wrappers

  /** `categoryName` is `None` when the backend sends no `category_name`. */
  datatype Product = Product(id: int, name: string, price: nat, categoryName: Option<string>)

  /** What a cart line or wishlist entry holds under `product`: the serialized
      form is the product's id, the nested form the whole product. */
  datatype ProductRef = ById(productId: int) | Nested(product: Product)
}
