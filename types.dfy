/**
 * The records the storefront passes around: the product document, a cart
 * line, a shipping address and the logged-in user's info.
 */
module Types {

  /**
   * A product document. `id` stands for the document's `_id` (ordered as
   * object ids are, by creation); `createdAt` is the creation timestamp.
   * `isFeatured` is the flag the home page selects on.
   */
  datatype Product = Product(
    id: nat,
    name: string,
    slug: string,
    category: string,
    image: string,
    price: real,
    brand: string,
    rating: real,
    numReviews: int,
    countInStock: int,
    description: string,
    isFeatured: bool,
    createdAt: int)

  /** A cart line: the product spread into the payload, plus `quantity`. */
  datatype CartItem = CartItem(product: Product, quantity: int)

  datatype ShippingAddress = ShippingAddress(
    fullName: string,
    address: string,
    city: string,
    postalCode: string,
    country: string)

  /** What the users API answers on login, register and profile update. */
  datatype UserInfo = UserInfo(token: string, id: nat, name: string, email: string, isAdmin: bool)
}
