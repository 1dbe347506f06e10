/** The cart controller: a per-user list of line items `(product, quantity)`.

    The pure functions below are the array operations the handlers apply to a
    fetched cart (`find`, `+=` on the found item, `push`, `filter`, overwrite);
    the class CartStore holds the carts collection and runs each handler as one
    atomic read-modify-write. */
module Carts {
  import opened Catalog

  datatype LineItem = LineItem(product: ObjectId, quantity: int)

  predicate HasProduct(items: seq<LineItem>, p: ObjectId) {
    exists i :: 0 <= i < |items| && items[i].product == p
  }

  /** The cart invariant: at most one line item per product. */
  predicate OneLinePerProduct(items: seq<LineItem>) {
    forall i, j :: 0 <= i < j < |items| ==> items[i].product != items[j].product
  }

  /** JavaScript's `quantity || 1`: an absent or zero quantity counts as one,
      any other value (negative ones included) is taken as given. */
  function EffectiveQuantity(quantity: Option<int>): (q: int)
    ensures q != 0
    ensures q == 1 || quantity == Some(q)
    ensures quantity.Some? && quantity.value != 0 ==> q == quantity.value
  {
    match quantity
    case Some(n) => if n != 0 then n else 1
    case None => 1
  }

  /** `items.find(item => item.product.equals(p))`, as the index of the FIRST match. */
  function FindItem(items: seq<LineItem>, p: ObjectId): (r: Option<nat>)
    ensures r.None? <==> !HasProduct(items, p)
    ensures r.Some? ==> r.value < |items| && items[r.value].product == p
    ensures r.Some? ==> forall j :: 0 <= j < r.value ==> items[j].product != p
  {
    if |items| == 0 then None
    else if items[0].product == p then Some(0)
    else match FindItem(items[1..], p)
      case None => None
      case Some(i) => Some(i + 1)
  }

  /** The item list after `addToCart`: the first item for `p` has its quantity
      raised, or a new item is pushed at the end. */
  function AddItem(items: seq<LineItem>, p: ObjectId, quantity: Option<int>): (r: seq<LineItem>)
    ensures HasProduct(r, p)
    ensures |r| == if HasProduct(items, p) then |items| else |items| + 1
    ensures forall j :: 0 <= j < |items| ==> r[j].product == items[j].product
    ensures forall j :: 0 <= j < |items| && items[j].product != p ==> r[j] == items[j]
  {
    var k := EffectiveQuantity(quantity);
    match FindItem(items, p)
    case Some(i) =>
      var r := items[i := items[i].(quantity := items[i].quantity + k)];
      assert r[i].product == p;
      r
    case None =>
      var r := items + [LineItem(p, k)];
      assert r[|items|].product == p;
      r
  }

  /** `items.filter(item => !item.product.equals(p))`. */
  function Without(items: seq<LineItem>, p: ObjectId): (r: seq<LineItem>)
    ensures !HasProduct(r, p)
    ensures forall x :: x in r <==> x in items && x.product != p
    ensures |r| <= |items|
  {
    if |items| == 0 then []
    else (if items[0].product == p then [] else [items[0]]) + Without(items[1..], p)
  }

  /** The item list after `updateCartItemQuantity`, or None when no item is
      for `p`: the first item for `p` gets exactly the given quantity. */
  function SetQuantity(items: seq<LineItem>, p: ObjectId, quantity: int): (r: Option<seq<LineItem>>)
    ensures r.None? <==> !HasProduct(items, p)
    ensures r.Some? ==> |r.value| == |items| && LineItem(p, quantity) in r.value
    ensures r.Some? ==> forall j :: 0 <= j < |items| ==> r.value[j].product == items[j].product
    ensures r.Some? ==> forall j :: 0 <= j < |items| && items[j].product != p ==> r.value[j] == items[j]
  {
    match FindItem(items, p)
    case Some(i) =>
      var r := items[i := items[i].(quantity := quantity)];
      assert r[i] == LineItem(p, quantity);
      Some(r)
    case None => None
  }

  // ---------------------------------------------------------------------------
  // Properties of the item-list operations

  /** With the invariant, the item `find` returns is the only one for `p`. */
  lemma FindItemUnique(items: seq<LineItem>, p: ObjectId, i: nat)
    requires OneLinePerProduct(items)
    requires i < |items| && items[i].product == p
    ensures FindItem(items, p) == Some(i)
  {
  }

  /** Adding a product already in the cart raises that one item's quantity by
      `quantity || 1` and changes nothing else. */
  lemma AddExisting(items: seq<LineItem>, p: ObjectId, quantity: Option<int>, i: nat)
    requires OneLinePerProduct(items)
    requires i < |items| && items[i].product == p
    ensures AddItem(items, p, quantity) == items[i := LineItem(p, items[i].quantity + EffectiveQuantity(quantity))]
  {
    FindItemUnique(items, p, i);
  }

  /** Adding a product not in the cart appends exactly one item at the end. */
  lemma AddNew(items: seq<LineItem>, p: ObjectId, quantity: Option<int>)
    requires !HasProduct(items, p)
    ensures AddItem(items, p, quantity) == items + [LineItem(p, EffectiveQuantity(quantity))]
  {
  }

  lemma AddKeepsOneLinePerProduct(items: seq<LineItem>, p: ObjectId, quantity: Option<int>)
    requires OneLinePerProduct(items)
    ensures OneLinePerProduct(AddItem(items, p, quantity))
  {
  }

  /** Adding the same product twice leaves one line item holding the sum of
      the two effective quantities (`q1 || 1` plus `q2 || 1`). */
  lemma AddTwiceSums(items: seq<LineItem>, p: ObjectId, q1: Option<int>, q2: Option<int>)
    requires OneLinePerProduct(items)
    ensures var r := AddItem(AddItem(items, p, q1), p, q2);
      var k := EffectiveQuantity(q1) + EffectiveQuantity(q2);
      && OneLinePerProduct(r)
      && (!HasProduct(items, p) ==> r == items + [LineItem(p, k)])
      && (forall i :: 0 <= i < |items| && items[i].product == p ==>
            r == items[i := LineItem(p, items[i].quantity + k)])
  {
    var once := AddItem(items, p, q1);
    AddKeepsOneLinePerProduct(items, p, q1);
    if !HasProduct(items, p) {
      AddNew(items, p, q1);
      AddExisting(once, p, q2, |items|);
    }
    forall i | 0 <= i < |items| && items[i].product == p
      ensures AddItem(once, p, q2) == items[i := LineItem(p, items[i].quantity + EffectiveQuantity(q1) + EffectiveQuantity(q2))]
    {
      AddExisting(items, p, q1, i);
      AddExisting(once, p, q2, i);
    }
  }

  /** Removing a product that is not in the cart leaves the list as it was. */
  lemma {:induction false} WithoutAbsent(items: seq<LineItem>, p: ObjectId)
    requires !HasProduct(items, p)
    ensures Without(items, p) == items
  {
    if |items| > 0 {
      assert !HasProduct(items[1..], p) by {
        forall j | 0 <= j < |items[1..]| ensures items[1..][j].product != p {
          assert items[1..][j] == items[j + 1];
        }
      }
      WithoutAbsent(items[1..], p);
    }
  }

  /** Removal works piece by piece, so the kept items stay in their order. */
  lemma {:induction false} WithoutAppend(a: seq<LineItem>, b: seq<LineItem>, p: ObjectId)
    ensures Without(a + b, p) == Without(a, p) + Without(b, p)
  {
    if |a| == 0 {
      assert a + b == b;
    } else {
      assert (a + b)[1..] == a[1..] + b;
      WithoutAppend(a[1..], b, p);
    }
  }

  /** The filter keeps every other item as often as it occurs, so removal
      never merges or drops items for other products. */
  lemma {:induction false} WithoutKeepsCounts(items: seq<LineItem>, p: ObjectId, x: LineItem)
    requires x.product != p
    ensures multiset(Without(items, p))[x] == multiset(items)[x]
  {
    if |items| > 0 {
      assert items == [items[0]] + items[1..];
      WithoutKeepsCounts(items[1..], p, x);
    }
  }

  lemma {:induction false} WithoutKeepsOneLinePerProduct(items: seq<LineItem>, p: ObjectId)
    requires OneLinePerProduct(items)
    ensures OneLinePerProduct(Without(items, p))
  {
    if |items| > 0 {
      var rest := Without(items[1..], p);
      WithoutKeepsOneLinePerProduct(items[1..], p);
      if items[0].product != p {
        forall x | x in rest ensures x.product != items[0].product {
          var j :| 0 <= j < |items[1..]| && items[1..][j] == x;
          assert items[j + 1] == x;
        }
        var r := [items[0]] + rest;
        forall i, j | 0 <= i < j < |r| ensures r[i].product != r[j].product {
          if i == 0 {
            assert r[j] in rest;
          } else {
            assert r[i] == rest[i - 1] && r[j] == rest[j - 1];
          }
        }
      }
    }
  }

  /** Adding a new product and then removing it restores the cart. */
  lemma AddThenRemove(items: seq<LineItem>, p: ObjectId, quantity: Option<int>)
    requires !HasProduct(items, p)
    ensures Without(AddItem(items, p, quantity), p) == items
  {
    AddNew(items, p, quantity);
    WithoutAppend(items, [LineItem(p, EffectiveQuantity(quantity))], p);
    WithoutAbsent(items, p);
  }

  /** The update overwrites exactly the one item for `p`, with the quantity
      verbatim: zero and negative quantities are stored as given. */
  lemma SetQuantityOverwrites(items: seq<LineItem>, p: ObjectId, quantity: int, i: nat)
    requires OneLinePerProduct(items)
    requires i < |items| && items[i].product == p
    ensures SetQuantity(items, p, quantity) == Some(items[i := LineItem(p, quantity)])
  {
    FindItemUnique(items, p, i);
  }

  lemma SetQuantityKeepsOneLinePerProduct(items: seq<LineItem>, p: ObjectId, quantity: int)
    requires OneLinePerProduct(items) && HasProduct(items, p)
    ensures OneLinePerProduct(SetQuantity(items, p, quantity).value)
  {
  }

  // ---------------------------------------------------------------------------
  // The carts collection and the handlers

  class CartStore {
    /** `Product.findOne({ id })`: external id to the product's `_id`; never written here. */
    const catalog: map<ExtId, ObjectId>
    /** The carts collection: one item list per user who has a cart. */
    var carts: map<UserId, seq<LineItem>>

    ghost predicate Valid()
      reads this
    {
      forall u :: u in carts ==> OneLinePerProduct(carts[u])
    }

    constructor (catalog: map<ExtId, ObjectId>, carts: map<UserId, seq<LineItem>>)
      ensures this.catalog == catalog && this.carts == carts
    {
      this.catalog := catalog;
      this.carts := carts;
    }

    /** The user's stored items, or the empty list `new Cart(...)` starts with. */
    function ItemsOf(user: UserId): seq<LineItem>
      reads this
    {
      if user in carts then carts[user] else []
    }

    /** `createCart`: fetch-or-create. */
    method CreateCart(user: UserId) returns (items: seq<LineItem>)
      modifies this
      ensures user in old(carts) ==> items == old(carts[user]) && carts == old(carts)
      ensures user !in old(carts) ==> items == [] && carts == old(carts)[user := []]
      ensures user in carts && carts[user] == items
      ensures old(Valid()) ==> Valid()
    {
      if user in carts {
        items := carts[user];
      } else {
        items := [];
        carts := carts[user := items];
      }
    }

    /** `getCart`: the stored items, or NotFound; it never creates a cart. */
    method GetCart(user: UserId) returns (r: Result<seq<LineItem>>)
      ensures r.NotFound? <==> user !in carts
      ensures r.NotFound? ==> r.reason == CartNotFound
      ensures r.Ok? ==> r.value == carts[user]
    {
      if user !in carts {
        return NotFound(CartNotFound);
      }
      r := Ok(carts[user]);
    }

    /** `addToCart`: resolve the product, fetch the cart or start an empty one,
        then raise the existing item's quantity or push a new item, and save. */
    method AddToCart(user: UserId, productId: ExtId, quantity: Option<int>) returns (r: Result<seq<LineItem>>)
      modifies this
      ensures productId !in catalog ==> r == NotFound(ProductNotFound) && carts == old(carts)
      ensures productId in catalog ==>
        && r == Ok(AddItem(old(ItemsOf(user)), catalog[productId], quantity))
        && carts == old(carts)[user := r.value]
      ensures productId in catalog && user !in old(carts) ==>
        carts[user] == [LineItem(catalog[productId], EffectiveQuantity(quantity))]
      ensures old(Valid()) ==> Valid()
    {
      if productId !in catalog {
        return NotFound(ProductNotFound);
      }
      var product := catalog[productId];
      var items := if user in carts then carts[user] else [];
      if Valid() {
        AddKeepsOneLinePerProduct(items, product, quantity);
      }
      var k := EffectiveQuantity(quantity);
      var existing := FindItem(items, product);
      match existing {
        case Some(i) =>
          items := items[i := items[i].(quantity := items[i].quantity + k)];
        case None =>
          items := items + [LineItem(product, k)];
      }
      carts := carts[user := items];
      r := Ok(items);
    }

    /** `removeFromCart`: the product is checked first, then the cart; every
        item for the product is filtered out. */
    method RemoveFromCart(user: UserId, productId: ExtId) returns (r: Result<seq<LineItem>>)
      modifies this
      ensures productId !in catalog ==> r == NotFound(ProductNotFound) && carts == old(carts)
      ensures productId in catalog && user !in old(carts) ==> r == NotFound(CartNotFound) && carts == old(carts)
      ensures productId in catalog && user in old(carts) ==>
        && r == Ok(Without(old(carts[user]), catalog[productId]))
        && carts == old(carts)[user := r.value]
      ensures old(Valid()) ==> Valid()
    {
      if productId !in catalog {
        return NotFound(ProductNotFound);
      }
      var product := catalog[productId];
      if user !in carts {
        return NotFound(CartNotFound);
      }
      var items := Without(carts[user], product);
      if Valid() {
        WithoutKeepsOneLinePerProduct(carts[user], product);
      }
      carts := carts[user := items];
      r := Ok(items);
    }

    /** `updateCartItemQuantity`: NotFound for an unknown product, a missing
        cart, or a product not in the cart, in that order; otherwise the
        found item's quantity is overwritten. */
    method UpdateCartItemQuantity(user: UserId, productId: ExtId, quantity: int) returns (r: Result<seq<LineItem>>)
      modifies this
      ensures productId !in catalog ==> r == NotFound(ProductNotFound) && carts == old(carts)
      ensures productId in catalog && user !in old(carts) ==> r == NotFound(CartNotFound) && carts == old(carts)
      ensures productId in catalog && user in old(carts) ==>
        match SetQuantity(old(carts[user]), catalog[productId], quantity)
        case None => r == NotFound(ItemNotFound) && carts == old(carts)
        case Some(items) => r == Ok(items) && carts == old(carts)[user := items]
      ensures old(Valid()) ==> Valid()
    {
      if productId !in catalog {
        return NotFound(ProductNotFound);
      }
      var product := catalog[productId];
      if user !in carts {
        return NotFound(CartNotFound);
      }
      var items := carts[user];
      var found := FindItem(items, product);
      if found.None? {
        return NotFound(ItemNotFound);
      }
      var i := found.value;
      if Valid() {
        SetQuantityKeepsOneLinePerProduct(items, product, quantity);
      }
      items := items[i := items[i].(quantity := quantity)];
      carts := carts[user := items];
      r := Ok(items);
    }
  }

  // ---------------------------------------------------------------------------
  // What callers of the handlers can rely on

  /** Registration and a later `POST /cart` may both create the cart: the
      second call finds the first one's cart and changes nothing. */
  method CreateCartTwice(store: CartStore, user: UserId) returns (first: seq<LineItem>, second: seq<LineItem>)
    modifies store
    ensures first == second
    ensures first == old(store.ItemsOf(user))
    ensures store.carts == old(store.carts)[user := first]
  {
    first := store.CreateCart(user);
    second := store.CreateCart(user);
  }

  /** Adding a product twice yields a single line item for it, holding the
      sum of the two effective quantities, whether or not it was in the cart. */
  method AddSameProductTwice(store: CartStore, user: UserId, productId: ExtId, q1: Option<int>, q2: Option<int>)
    returns (r: Result<seq<LineItem>>)
    requires store.Valid()
    modifies store
    ensures store.Valid()
    ensures productId !in store.catalog ==> r == NotFound(ProductNotFound) && store.carts == old(store.carts)
    ensures productId in store.catalog ==> r.Ok? && store.carts == old(store.carts)[user := r.value]
    ensures productId in store.catalog ==>
      var items, p := old(store.ItemsOf(user)), store.catalog[productId];
      var k := EffectiveQuantity(q1) + EffectiveQuantity(q2);
      && (!HasProduct(items, p) ==> r.value == items + [LineItem(p, k)])
      && (forall i :: 0 <= i < |items| && items[i].product == p ==>
            r.value == items[i := LineItem(p, items[i].quantity + k)])
  {
    if productId !in store.catalog {
      r := store.AddToCart(user, productId, q1);
      r := store.AddToCart(user, productId, q2);
      return;
    }
    ghost var items, p := store.ItemsOf(user), store.catalog[productId];
    var first := store.AddToCart(user, productId, q1);
    assert store.ItemsOf(user) == AddItem(items, p, q1);
    r := store.AddToCart(user, productId, q2);
    assert r.value == AddItem(AddItem(items, p, q1), p, q2);
    AddTwiceSums(items, p, q1, q2);
  }
}
