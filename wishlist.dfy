/** The wishlist controller: a per-user list of product refs with set
    semantics (no quantity, no duplicates).

    The pure functions are the array operations the handlers apply to a
    fetched wishlist (`includes` guarding `push`, `filter`); the class
    WishlistStore holds the wishlists collection and runs each handler as one
    atomic read-modify-write. */
module Wishlists {
  import opened Catalog

  /** The wishlist invariant: every product appears at most once. */
  predicate NoDuplicates(products: seq<ObjectId>) {
    forall i, j :: 0 <= i < j < |products| ==> products[i] != products[j]
  }

  /** The list after `addToWishlist`: `p` is pushed only when `includes` says
      it is absent. */
  function WithProduct(products: seq<ObjectId>, p: ObjectId): (r: seq<ObjectId>)
    ensures p in r
    ensures |products| <= |r| <= |products| + 1
    ensures r[..|products|] == products
    ensures forall x :: x in r ==> x in products || x == p
  {
    if p in products then products else products + [p]
  }

  /** `products.filter(q => !q.equals(p))`. */
  function WithoutProduct(products: seq<ObjectId>, p: ObjectId): (r: seq<ObjectId>)
    ensures p !in r
    ensures forall x :: x in r <==> x in products && x != p
    ensures |r| <= |products|
  {
    if |products| == 0 then []
    else (if products[0] == p then [] else [products[0]]) + WithoutProduct(products[1..], p)
  }

  // ---------------------------------------------------------------------------
  // Properties of the list operations

  /** Adding a product already present changes nothing, so adding twice is
      adding once. */
  lemma WithProductIdempotent(products: seq<ObjectId>, p: ObjectId)
    ensures WithProduct(WithProduct(products, p), p) == WithProduct(products, p)
    ensures p in products ==> WithProduct(products, p) == products
  {
  }

  lemma WithProductKeepsNoDuplicates(products: seq<ObjectId>, p: ObjectId)
    requires NoDuplicates(products)
    ensures NoDuplicates(WithProduct(products, p))
  {
  }

  /** Removing a product that is absent leaves the list as it was. */
  lemma {:induction false} WithoutProductAbsent(products: seq<ObjectId>, p: ObjectId)
    requires p !in products
    ensures WithoutProduct(products, p) == products
  {
    if |products| > 0 {
      assert p !in products[1..];
      WithoutProductAbsent(products[1..], p);
    }
  }

  /** Removal works piece by piece, so the remaining refs keep their order. */
  lemma {:induction false} WithoutProductAppend(a: seq<ObjectId>, b: seq<ObjectId>, p: ObjectId)
    ensures WithoutProduct(a + b, p) == WithoutProduct(a, p) + WithoutProduct(b, p)
  {
    if |a| == 0 {
      assert a + b == b;
    } else {
      assert (a + b)[1..] == a[1..] + b;
      WithoutProductAppend(a[1..], b, p);
    }
  }

  /** The filter keeps every other ref as often as it occurs. */
  lemma {:induction false} WithoutProductKeepsCounts(products: seq<ObjectId>, p: ObjectId, x: ObjectId)
    requires x != p
    ensures multiset(WithoutProduct(products, p))[x] == multiset(products)[x]
  {
    if |products| > 0 {
      assert products == [products[0]] + products[1..];
      WithoutProductKeepsCounts(products[1..], p, x);
    }
  }

  lemma {:induction false} WithoutProductKeepsNoDuplicates(products: seq<ObjectId>, p: ObjectId)
    requires NoDuplicates(products)
    ensures NoDuplicates(WithoutProduct(products, p))
  {
    if |products| > 0 {
      var rest := WithoutProduct(products[1..], p);
      WithoutProductKeepsNoDuplicates(products[1..], p);
      if products[0] != p {
        assert products[0] !in products[1..];
        var r := [products[0]] + rest;
        forall i, j | 0 <= i < j < |r| ensures r[i] != r[j] {
          if i == 0 {
            assert r[j] in rest;
          } else {
            assert r[i] == rest[i - 1] && r[j] == rest[j - 1];
          }
        }
      }
    }
  }

  /** Adding a new product and then removing it restores the list. */
  lemma AddThenRemoveProduct(products: seq<ObjectId>, p: ObjectId)
    requires p !in products
    ensures WithoutProduct(WithProduct(products, p), p) == products
  {
    WithoutProductAppend(products, [p], p);
    WithoutProductAbsent(products, p);
  }

  // ---------------------------------------------------------------------------
  // The wishlists collection and the handlers

  class WishlistStore {
    /** `Product.findOne({ id })`: external id to the product's `_id`; never written here. */
    const catalog: map<ExtId, ObjectId>
    /** The wishlists collection: one ref list per user who has a wishlist. */
    var wishlists: map<UserId, seq<ObjectId>>

    ghost predicate Valid()
      reads this
    {
      forall u :: u in wishlists ==> NoDuplicates(wishlists[u])
    }

    constructor (catalog: map<ExtId, ObjectId>, wishlists: map<UserId, seq<ObjectId>>)
      ensures this.catalog == catalog && this.wishlists == wishlists
    {
      this.catalog := catalog;
      this.wishlists := wishlists;
    }

    /** The user's stored refs, or the empty list `new Wishlist(...)` starts with. */
    function ProductsOf(user: UserId): seq<ObjectId>
      reads this
    {
      if user in wishlists then wishlists[user] else []
    }

    /** `createWishlist`: fetch-or-create. */
    method CreateWishlist(user: UserId) returns (products: seq<ObjectId>)
      modifies this
      ensures user in old(wishlists) ==> products == old(wishlists[user]) && wishlists == old(wishlists)
      ensures user !in old(wishlists) ==> products == [] && wishlists == old(wishlists)[user := []]
      ensures user in wishlists && wishlists[user] == products
      ensures old(Valid()) ==> Valid()
    {
      if user in wishlists {
        products := wishlists[user];
      } else {
        products := [];
        wishlists := wishlists[user := products];
      }
    }

    /** `getWishlist`: the stored refs, or NotFound; it never creates a wishlist. */
    method GetWishlist(user: UserId) returns (r: Result<seq<ObjectId>>)
      ensures r.NotFound? <==> user !in wishlists
      ensures r.NotFound? ==> r.reason == WishlistNotFound
      ensures r.Ok? ==> r.value == wishlists[user]
    {
      if user !in wishlists {
        return NotFound(WishlistNotFound);
      }
      r := Ok(wishlists[user]);
    }

    /** `addToWishlist`: resolve the product, fetch the wishlist or start an
        empty one, and push and save only when the product is absent. */
    method AddToWishlist(user: UserId, productId: ExtId) returns (r: Result<seq<ObjectId>>)
      modifies this
      ensures productId !in catalog ==> r == NotFound(ProductNotFound) && wishlists == old(wishlists)
      ensures productId in catalog ==>
        && r == Ok(WithProduct(old(ProductsOf(user)), catalog[productId]))
        && wishlists == old(wishlists)[user := r.value]
      ensures productId in catalog && user !in old(wishlists) ==> wishlists[user] == [catalog[productId]]
      ensures old(Valid()) ==> Valid()
    {
      if productId !in catalog {
        return NotFound(ProductNotFound);
      }
      var product := catalog[productId];
      var products := if user in wishlists then wishlists[user] else [];
      if product !in products {
        if Valid() {
          WithProductKeepsNoDuplicates(products, product);
        }
        products := products + [product];
        wishlists := wishlists[user := products];
      }
      r := Ok(products);
    }

    /** `removeFromWishlist`: the product is checked first, then the
        wishlist; every ref to the product is filtered out. */
    method RemoveFromWishlist(user: UserId, productId: ExtId) returns (r: Result<seq<ObjectId>>)
      modifies this
      ensures productId !in catalog ==> r == NotFound(ProductNotFound) && wishlists == old(wishlists)
      ensures productId in catalog && user !in old(wishlists) ==>
        r == NotFound(WishlistNotFound) && wishlists == old(wishlists)
      ensures productId in catalog && user in old(wishlists) ==>
        && r == Ok(WithoutProduct(old(wishlists[user]), catalog[productId]))
        && wishlists == old(wishlists)[user := r.value]
      ensures old(Valid()) ==> Valid()
    {
      if productId !in catalog {
        return NotFound(ProductNotFound);
      }
      var product := catalog[productId];
      if user !in wishlists {
        return NotFound(WishlistNotFound);
      }
      var products := WithoutProduct(wishlists[user], product);
      if Valid() {
        WithoutProductKeepsNoDuplicates(wishlists[user], product);
      }
      wishlists := wishlists[user := products];
      r := Ok(products);
    }
  }

  // ---------------------------------------------------------------------------
  // What callers of the handlers can rely on

  /** A second `createWishlist` finds the first one's wishlist and changes nothing. */
  method CreateWishlistTwice(store: WishlistStore, user: UserId) returns (first: seq<ObjectId>, second: seq<ObjectId>)
    modifies store
    ensures first == second
    ensures first == old(store.ProductsOf(user))
    ensures store.wishlists == old(store.wishlists)[user := first]
  {
    first := store.CreateWishlist(user);
    second := store.CreateWishlist(user);
  }

  /** Adding the same product twice leaves the store as adding it once does. */
  method AddToWishlistTwice(store: WishlistStore, user: UserId, productId: ExtId)
    returns (first: Result<seq<ObjectId>>, second: Result<seq<ObjectId>>)
    modifies store
    ensures first == second
    ensures productId !in store.catalog ==> first == NotFound(ProductNotFound)
    ensures productId in store.catalog ==>
      first == Ok(WithProduct(old(store.ProductsOf(user)), store.catalog[productId]))
    ensures productId in store.catalog ==>
      store.wishlists == old(store.wishlists)[user := WithProduct(old(store.ProductsOf(user)), store.catalog[productId])]
    ensures productId !in store.catalog ==> store.wishlists == old(store.wishlists)
  {
    first := store.AddToWishlist(user, productId);
    second := store.AddToWishlist(user, productId);
    if productId in store.catalog {
      WithProductIdempotent(old(store.ProductsOf(user)), store.catalog[productId]);
    }
  }
}
