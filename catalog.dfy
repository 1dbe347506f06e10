/** Identifiers and results shared by the cart and wishlist controllers.

    A product has two identifiers: the external catalog `id` that clients send
    (ExtId) and the store's internal `_id` (an ObjectId) that carts and
    wishlists hold. `Product.findOne({ id })` is modelled as a read-only map
    from the first to the second. */
module Catalog {

  /** The authenticated user's id (the token's subject), or `userId` in a body. */
  type UserId = string

  /** The external catalog identifier of a product (its `id` field). */
  type ExtId = int

  /** An internal store identifier; refs are compared with `==`, as `.equals` does. */
  datatype ObjectId = ObjectId(hex: string)

  /** The four "not found" answers the handlers give, one per 404 message. */
  datatype Reason = ProductNotFound | CartNotFound | ItemNotFound | WishlistNotFound

  /** What a handler answers: the aggregate's list on success, or a 404 reason. */
  datatype Result<T> = Ok(value: T) | NotFound(reason: Reason)

  datatype Option<T> = None | Some(value: T)
}
