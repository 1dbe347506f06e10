# Cart and wishlist handlers of the AJIO server, in Dafny

This project models the per-user shopping cart and wishlist of a small
e-commerce backend. Each user has at most one cart, an ordered list of line
items `(product, quantity)`, and at most one wishlist, an ordered list of
product references with set semantics. "At most one", and the list
invariants below, hold when requests for the same user run one at a time;
"## Left out" says what interleaved requests can do.

`createCart` and `createWishlist` take a `userId` and fetch the user's
aggregate, creating and saving an empty one when it is missing. `getCart` and
`getWishlist` only read it. The five handlers that take a product id are
`addToCart`, `removeFromCart`, `updateCartItemQuantity`, `addToWishlist` and
`removeFromWishlist`. Each of them first resolves the external id the client
sends (`Product.findOne({ id })`). In the model this lookup is a read-only map
`catalog` from external id to the product's internal `ObjectId`. The handler
then fetches the user's aggregate, changes its list in memory and saves it
back. `addToWishlist` is the exception: it pushes and saves only when the
product is absent. Each handler is modelled as one atomic method on a store
class:

- `Carts.CartStore` holds the carts collection as `carts: map<UserId, seq<LineItem>>`.
- `Wishlists.WishlistStore` holds the wishlists collection as `wishlists: map<UserId, seq<ObjectId>>`.

The array operations the handlers apply are pure functions: `find`, `+=` on
the found item, `push`, `filter` and `includes`. The lemmas beside them state
the properties the handlers rely on:

- at most one line item per product (`OneLinePerProduct`);
- no duplicate wishlist entries (`NoDuplicates`);
- increment versus append in `addToCart`;
- removal that keeps the order of the remaining entries;
- idempotence of create and of wishlist add.

The `ensures` of each handler that takes a product id ties its answer and the
new collection to those functions. The create and get handlers tie theirs to
the stored list, or to `[]` for a new aggregate. Every handler's `ensures`
says that each NotFound path leaves the collection as it was, and every
mutating handler's says the store invariant is preserved.

JavaScript's `quantity || 1` is modelled as `EffectiveQuantity`: an absent
quantity or a quantity of 0 becomes 1, and any other integer is used as given.

`updateCartItemQuantity` stores the quantity verbatim, with no lower bound. The
route documentation declares `minimum: 1` (routes/cartRoutes.js:174), but
neither the route nor the handler checks it. The handlers pass the quantity to
`save()` unchecked, as `addToCart` does with a negative quantity. The Cart
schema is not part of this model, so whether `save()` would reject such a
value is not modelled (a rejected save is a `save()` failure, left out below).
The model keeps the handlers' behaviour: `SetQuantityOverwrites` holds for
every integer.

## Model

| member | source | states |
|---|---|---|
| `Carts.EffectiveQuantity` | controllers/cartController.js:50-52 | `quantity \|\| 1` is never 0; it is the given quantity whenever that is present and non-zero, and 1 otherwise |
| `Carts.FindItem` | controllers/cartController.js:47 | `find` answers None exactly when no item has the product; otherwise it gives the index of the first item for it |
| `Carts.AddItem` | controllers/cartController.js:47-53 | after an add the product is in the cart; the length grows by one only if the product was absent; every item keeps its product, and items for other products are unchanged |
| `Carts.Without` | controllers/cartController.js:77 | the filter removes every item for the product; an item for another product is in the result exactly when it was in the input; the result is no longer |
| `Carts.SetQuantity` | controllers/cartController.js:102-108 | the update fails exactly when no item has the product; otherwise the length and every item's product are kept, other products' items are unchanged, and `(p, quantity)` is in the list |
| `Carts.FindItemUnique` | controllers/cartController.js:47 | in a cart with one line per product, `find` returns the one item for the product |
| `Carts.AddExisting` | controllers/cartController.js:47-50 | adding a product already in the cart raises only that item's quantity, by `quantity \|\| 1` |
| `Carts.AddNew` | controllers/cartController.js:51-53 | adding a product not in the cart appends exactly `(product, quantity \|\| 1)` at the end |
| `Carts.AddKeepsOneLinePerProduct` | controllers/cartController.js:47-53 | an add preserves "at most one line item per product" |
| `Carts.AddTwiceSums` | controllers/cartController.js:47-53 | adding a product twice with any quantities q1, then q2, leaves one line item; if the product was absent it is `(p, (q1 \|\| 1) + (q2 \|\| 1))` at the end, otherwise that item's quantity grew by that sum |
| `Carts.WithoutAbsent` | controllers/cartController.js:77 | removing a product that is not in the cart leaves the list unchanged |
| `Carts.WithoutAppend` | controllers/cartController.js:77 | the filter distributes over concatenation, so the kept items stay in their original order |
| `Carts.WithoutKeepsCounts` | controllers/cartController.js:77 | every item for another product occurs in the filtered list exactly as often as before |
| `Carts.WithoutKeepsOneLinePerProduct` | controllers/cartController.js:77 | a removal preserves "at most one line item per product" |
| `Carts.AddThenRemove` | controllers/cartController.js:47-53 | adding a product that was absent and then removing it restores the original list |
| `Carts.SetQuantityOverwrites` | controllers/cartController.js:102-108 | in a cart with one line per product, the update replaces exactly that product's item with `(p, quantity)`, for any integer quantity |
| `Carts.SetQuantityKeepsOneLinePerProduct` | controllers/cartController.js:102-108 | an update preserves "at most one line item per product" |
| `Carts.CartStore.CreateCart` | controllers/cartController.js:4-18 | an existing cart is returned and the store is unchanged; otherwise an empty cart is stored and returned; the invariant is kept |
| `Carts.CartStore.GetCart` | controllers/cartController.js:20-30 | NotFound(CartNotFound) exactly when the user has no cart, otherwise the stored items; it modifies nothing |
| `Carts.CartStore.AddToCart` | controllers/cartController.js:32-60 | an unknown product gives NotFound(ProductNotFound) and changes nothing, not even creating a missing cart; otherwise the user's cart (an empty one when missing) becomes `AddItem` of it, and a user with no cart ends up with exactly one item |
| `Carts.CartStore.RemoveFromCart` | controllers/cartController.js:62-84 | NotFound for an unknown product first, then for a missing cart, each with the store unchanged; otherwise the cart becomes `Without` of it |
| `Carts.CartStore.UpdateCartItemQuantity` | controllers/cartController.js:86-115 | NotFound for an unknown product, a missing cart, then a product not in the cart, in that order, each with the store unchanged; otherwise the cart becomes `SetQuantity` of it |
| `Carts.CreateCartTwice` | controllers/cartController.js:7-12 | creating a cart twice returns the user's existing items (or `[]`) both times, and only that user's entry changes, to that list, as after one creation |
| `Carts.AddSameProductTwice` | controllers/cartController.js:35-55 | two adds of one product: an unknown product changes nothing; otherwise only the user's cart changes, to the answer, which holds one item for the product: `(p, (q1 \|\| 1) + (q2 \|\| 1))` appended if it was absent, else its quantity raised by that sum; the invariant holds |
| `Wishlists.WithProduct` | controllers/wishlistController.js:47-48 | after an add the product is present; the old list is a prefix of the new one; the length grows by at most one; nothing but the product is added |
| `Wishlists.WithoutProduct` | controllers/wishlistController.js:73 | the filter removes the product; any other ref is in the result exactly when it was in the input; the result is no longer |
| `Wishlists.WithProductIdempotent` | controllers/wishlistController.js:47-48 | adding a product already present is a no-op, so adding twice equals adding once |
| `Wishlists.WithProductKeepsNoDuplicates` | controllers/wishlistController.js:47-48 | an add preserves the no-duplicates invariant |
| `Wishlists.WithoutProductAbsent` | controllers/wishlistController.js:73 | removing a product that is absent leaves the list unchanged |
| `Wishlists.WithoutProductAppend` | controllers/wishlistController.js:73 | the filter distributes over concatenation, so the remaining refs keep their order |
| `Wishlists.WithoutProductKeepsCounts` | controllers/wishlistController.js:73 | every other ref occurs in the filtered list exactly as often as before |
| `Wishlists.WithoutProductKeepsNoDuplicates` | controllers/wishlistController.js:73 | a removal preserves the no-duplicates invariant |
| `Wishlists.AddThenRemoveProduct` | controllers/wishlistController.js:47-48 | adding a product that was absent and then removing it restores the original list |
| `Wishlists.WishlistStore.CreateWishlist` | controllers/wishlistController.js:4-18 | an existing wishlist is returned and the store is unchanged; otherwise an empty wishlist is stored and returned |
| `Wishlists.WishlistStore.GetWishlist` | controllers/wishlistController.js:20-30 | NotFound(WishlistNotFound) exactly when the user has no wishlist, otherwise the stored refs; it modifies nothing |
| `Wishlists.WishlistStore.AddToWishlist` | controllers/wishlistController.js:32-56 | an unknown product gives NotFound(ProductNotFound) and creates or changes nothing; otherwise the wishlist (an empty one when missing) becomes `WithProduct` of it, and a user with no wishlist ends up with exactly that product |
| `Wishlists.WishlistStore.RemoveFromWishlist` | controllers/wishlistController.js:58-80 | NotFound for an unknown product first, then for a missing wishlist, each with the store unchanged; otherwise the wishlist becomes `WithoutProduct` of it |
| `Wishlists.CreateWishlistTwice` | controllers/wishlistController.js:7-12 | creating a wishlist twice returns the user's existing refs (or `[]`) both times, and only that user's entry changes, to that list, as after one creation |
| `Wishlists.AddToWishlistTwice` | controllers/wishlistController.js:35-52 | both adds give the same answer, that of one add: NotFound(ProductNotFound) with the store unchanged for an unknown product, otherwise `Ok` of the old list with the product pushed if absent; the store ends as after one add |

## Left out

- The `.populate(...)` joins in `getCart` and `getWishlist` are not modelled: they resolve references to full product documents in the storage layer, and the model returns the stored references.
- HTTP status codes, the catch-all "Server error" paths and failures of `save()` are left out. Each handler is one atomic step that either answers NotFound or commits.
- Concurrent requests for the same user are not modelled. Two interleaved read-modify-write handlers can lose an update. Two interleaved `addToCart` (or `addToWishlist`) calls for a user with none can each create one, leaving two carts (or wishlists) for that user, since the handlers rely only on fetch-or-create to keep them single (controllers/cartController.js:7-12, 41-45; controllers/wishlistController.js:7-12, 41-45). A sequential model cannot show either effect, so "one aggregate per user" and the list invariants are promised only for requests that run one at a time.
- JavaScript type coercion of `quantity` is left out: a string from JSON makes `+=` concatenate, and NaN is falsy. Quantities are unbounded integers here, and the one in `addToCart` is optional. JavaScript numbers are doubles, so the source's `+=` rounds above 2^53, and a fractional quantity passes through unchanged; neither is modelled.
- `Carts.CartStore.UpdateCartItemQuantity` takes the quantity as a required integer. An absent `quantity` is not modelled: the handler then assigns `undefined`, and what `save()` does with that depends on the Cart schema, which is not part of this model.
- The catalog is fixed for the lifetime of a store. Product import, the product queries, and registration/login (with their HTTP calls back into the create endpoints) are not part of this model.
- The two stores hold independent catalogs. The program's `Product` collection is one, read by both controllers (controllers/cartController.js:35, controllers/wishlistController.js:35). No property here spans both stores; one shared catalog value would be needed for one that did.
- Object ids are compared with `==`, which stands for Mongoose's `.equals` and `includes` on ObjectIds.
